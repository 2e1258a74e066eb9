/**
 * The HTTP server's session registry (cmd/mcpserver/main.go, sessionStore
 * and generateSessionID): sessions keyed by an id that is the lowercase
 * base16 encoding (section 8 of RFC 4648) of 16 random bytes. The random
 * bytes and the creation time are parameters.
 */
module Sessions {
  import opened Wrappers

  newtype byte = x: int | 0 <= x < 256

  const HexDigits: string := "0123456789abcdef"

  predicate IsLowerHex(c: char) {
    '0' <= c <= '9' || 'a' <= c <= 'f'
  }

  /** The value of a lowercase hex digit. */
  function HexValue(c: char): (v: nat)
    requires IsLowerHex(c)
    ensures v < 16 && HexDigits[v] == c
  {
    if c <= '9' then (c as int - '0' as int) as nat else (c as int - 'a' as int + 10) as nat
  }

  /** hex.EncodeToString: two lowercase digits per byte, high nibble first. */
  function HexEncode(bytes: seq<byte>): (s: string)
    ensures |s| == 2 * |bytes|
    ensures forall k :: 0 <= k < |s| ==> IsLowerHex(s[k])
    decreases |bytes|
  {
    if |bytes| == 0 then ""
    else [HexDigits[bytes[0] as int / 16], HexDigits[bytes[0] as int % 16]] + HexEncode(bytes[1..])
  }

  /** hex.DecodeString for lowercase input: None on an odd length or a non-digit. */
  function HexDecode(s: string): Option<seq<byte>>
    decreases |s|
  {
    if |s| == 0 then Some([])
    else if |s| == 1 || !IsLowerHex(s[0]) || !IsLowerHex(s[1]) then None
    else
      match HexDecode(s[2..])
      case None => None
      case Some(rest) => Some([(HexValue(s[0]) * 16 + HexValue(s[1])) as byte] + rest)
  }

  /** Decoding gives back the encoded bytes. */
  lemma {:induction false} HexRoundTrip(bytes: seq<byte>)
    ensures HexDecode(HexEncode(bytes)) == Some(bytes)
    decreases |bytes|
  {
    if |bytes| > 0 {
      var b := bytes[0] as int;
      var high, low := HexDigits[b / 16], HexDigits[b % 16];
      var rest := HexEncode(bytes[1..]);
      assert HexEncode(bytes) == [high, low] + rest;
      HexRoundTrip(bytes[1..]);
      DigitRoundTrip(b / 16);
      DigitRoundTrip(b % 16);
      HexDecodePair(high, low, rest, bytes[1..]);
      assert (HexValue(high) * 16 + HexValue(low)) as byte == bytes[0];
      assert [bytes[0]] + bytes[1..] == bytes;
    }
  }

  /** Decoding consumes two digits at a time from the front. */
  lemma HexDecodePair(high: char, low: char, rest: string, tail: seq<byte>)
    requires IsLowerHex(high) && IsLowerHex(low) && HexDecode(rest) == Some(tail)
    ensures HexDecode([high, low] + rest) == Some([(HexValue(high) * 16 + HexValue(low)) as byte] + tail)
  {
    var s := [high, low] + rest;
    assert s[0] == high && s[1] == low && s[2..] == rest;
  }

  /** The digit of a value below 16 is a lowercase hex digit of that value. */
  lemma DigitRoundTrip(v: nat)
    requires v < 16
    ensures IsLowerHex(HexDigits[v]) && HexValue(HexDigits[v]) == v
  {
    HexDigitsDistinct(v, HexValue(HexDigits[v]));
  }

  /** Different digit values have different digits. */
  lemma HexDigitsDistinct(a: nat, b: nat)
    requires a < 16 && b < 16 && HexDigits[a] == HexDigits[b]
    ensures a == b
  {
  }

  /** Different random bytes give different ids. */
  lemma HexEncodeInjective(a: seq<byte>, b: seq<byte>)
    requires HexEncode(a) == HexEncode(b)
    ensures a == b
  {
    HexRoundTrip(a);
    HexRoundTrip(b);
  }

  /** A well-formed session id: 32 lowercase hex digits. */
  predicate IsSessionId(id: string) {
    |id| == 32 && forall k :: 0 <= k < |id| ==> IsLowerHex(id[k])
  }

  /** generateSessionID, with the 16 random bytes given. */
  function GenerateSessionId(random: seq<byte>): (id: string)
    requires |random| == 16
    ensures IsSessionId(id)
    ensures HexDecode(id) == Some(random)
  {
    HexRoundTrip(random);
    HexEncode(random)
  }

  /** One MCP session: its id and its creation time. */
  datatype Session = Session(id: string, createdAt: int)

  /** The registry of sessions, keyed by id. */
  class SessionStore {
    var sessions: map<string, Session>

    /** Every entry is stored under its own well-formed id. */
    ghost predicate Valid()
      reads this
    {
      forall id :: id in sessions ==> sessions[id].id == id && IsSessionId(id)
    }

    constructor ()
      ensures Valid() && sessions == map[]
    {
      sessions := map[];
    }

    /**
     * create: a new session with the id made from `random`, stored under that
     * id; no other entry changes.
     */
    method Create(random: seq<byte>, now: int) returns (s: Session)
      requires |random| == 16 && Valid()
      modifies this
      ensures Valid()
      ensures s == Session(GenerateSessionId(random), now)
      ensures sessions == old(sessions)[s.id := s]
      ensures sessions.Keys == old(sessions).Keys + {s.id}
      ensures forall id :: id in old(sessions) && id != s.id ==> sessions[id] == old(sessions)[id]
    {
      var id := GenerateSessionId(random);
      s := Session(id, now);
      sessions := sessions[id := s];
    }

    /** get: the session stored under `id`, or nothing. */
    method Get(id: string) returns (s: Option<Session>)
      requires Valid()
      ensures s.Some? <==> id in sessions
      ensures s.Some? ==> s.value == sessions[id] && s.value.id == id && IsSessionId(id)
    {
      if id in sessions {
        s := Some(sessions[id]);
      } else {
        s := None;
      }
    }
  }

  /** A session that was just created can be looked up under its id. */
  method CreateThenGet(store: SessionStore, random: seq<byte>, now: int) returns (found: Option<Session>)
    requires |random| == 16 && store.Valid()
    modifies store
    ensures found == Some(Session(GenerateSessionId(random), now))
    ensures store.Valid()
  {
    var s := store.Create(random, now);
    found := store.Get(s.id);
  }

  /** An id that is not well formed is never found in a valid store. */
  lemma MalformedIdAbsent(store: SessionStore, id: string)
    requires store.Valid() && !IsSessionId(id)
    ensures id !in store.sessions
  {
  }
}
