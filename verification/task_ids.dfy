/**
 * Task identifiers. `sendRunTask` takes the text of a version-4 uuid, deletes
 * every hyphen and keeps at most the first 32 characters. The uuid generator is
 * an oracle: the model receives its output as a parameter and assumes nothing
 * about it beyond the textual layout of a uuid where a property needs it.
 */
module TaskIds {

  const TaskIdLength: nat := 32
  const UuidTextLength: nat := 36

  /** A lowercase hexadecimal digit, the alphabet of uuid text. */
  predicate IsLowerHex(c: char) {
    '0' <= c <= '9' || 'a' <= c <= 'f'
  }

  /** A task id as the service expects it: exactly 32 lowercase hexadecimal digits. */
  predicate IsTaskId(t: string) {
    |t| == TaskIdLength && forall i :: 0 <= i < |t| ==> IsLowerHex(t[i])
  }

  predicate IsHyphenPosition(i: int) {
    i == 8 || i == 13 || i == 18 || i == 23
  }

  /** The canonical 8-4-4-4-12 text of a uuid, in lowercase. */
  predicate IsUuidText(u: string) {
    && |u| == UuidTextLength
    && forall i :: 0 <= i < |u| ==> if IsHyphenPosition(i) then u[i] == '-' else IsLowerHex(u[i])
  }

  /** `s.replace(/-/g, '')`: every character of `s` except the hyphens, in order. */
  function StripHyphens(s: string): (r: string)
    ensures |r| <= |s|
    ensures forall c :: c in r <==> c in s && c != '-'
    ensures forall i :: 0 <= i < |r| ==> r[i] != '-'
  {
    if s == [] then []
    else if s[0] == '-' then StripHyphens(s[1..])
    else [s[0]] + StripHyphens(s[1..])
  }

  lemma {:induction false} StripHyphensAppend(a: string, b: string)
    ensures StripHyphens(a + b) == StripHyphens(a) + StripHyphens(b)
  {
    if a == [] {
      assert a + b == b;
    } else {
      assert (a + b)[0] == a[0];
      assert (a + b)[1..] == a[1..] + b;
      StripHyphensAppend(a[1..], b);
    }
  }

  /**
   * On one character: a hyphen is deleted, anything else is kept. With
   * `StripHyphensAppend` this fixes the result on every string: the input
   * with each hyphen deleted, the other characters in order and in number.
   */
  lemma StripHyphensOfChar(c: char)
    ensures StripHyphens([c]) == if c == '-' then [] else [c]
  {
    assert [c][1..] == [];
  }

  lemma {:induction false} StripHyphensKeepsHex(s: string)
    requires forall i :: 0 <= i < |s| ==> IsLowerHex(s[i])
    ensures StripHyphens(s) == s
  {
    if s != [] {
      assert IsLowerHex(s[0]);
      StripHyphensKeepsHex(s[1..]);
    }
  }

  /** `uuidv4().replace(/-/g, '').slice(0, 32)` for the oracle output `u`. */
  function TaskIdFromUuid(u: string): (id: string)
    ensures |id| <= TaskIdLength
    ensures id <= StripHyphens(u)
    ensures |StripHyphens(u)| >= TaskIdLength ==> |id| == TaskIdLength
    ensures |StripHyphens(u)| <= TaskIdLength ==> id == StripHyphens(u)
    ensures forall i :: 0 <= i < |id| ==> id[i] != '-'
  {
    var h := StripHyphens(u);
    if |h| <= TaskIdLength then h else h[..TaskIdLength]
  }

  /** Puts the hyphens of the 8-4-4-4-12 layout back into a 32-digit id. */
  function UuidTextOf(id: string): string
    requires |id| == TaskIdLength
  {
    id[..8] + "-" + id[8..12] + "-" + id[12..16] + "-" + id[16..20] + "-" + id[20..]
  }

  /** The five hexadecimal groups of a uuid text, concatenated. */
  function HexDigitsOf(u: string): string
    requires |u| == UuidTextLength
  {
    u[..8] + u[9..13] + u[14..18] + u[19..23] + u[24..]
  }

  /** Splitting a prefix of `u` at `a` splits its hyphen-free text the same way. */
  lemma StripHyphensOfPrefix(u: string, a: nat, b: nat)
    requires a <= b <= |u|
    ensures StripHyphens(u[..b]) == StripHyphens(u[..a]) + StripHyphens(u[a..b])
  {
    assert u[..b] == u[..a] + u[a..b];
    StripHyphensAppend(u[..a], u[a..b]);
  }

  /** Extends the hyphen-free text of `u[..a]` by a group of hex digits `u[a..b]`. */
  lemma AppendHexGroup(u: string, a: nat, b: nat)
    requires IsUuidText(u) && a <= b <= |u|
    requires forall i :: a <= i < b ==> !IsHyphenPosition(i)
    ensures StripHyphens(u[..b]) == StripHyphens(u[..a]) + u[a..b]
  {
    StripHyphensOfPrefix(u, a, b);
    assert forall i :: 0 <= i < b - a ==> u[a..b][i] == u[a + i];
    StripHyphensKeepsHex(u[a..b]);
  }

  /** Extending `u[..a]` by the hyphen at `a` leaves its hyphen-free text as it was. */
  lemma AppendHyphen(u: string, a: nat)
    requires IsUuidText(u) && a < |u| && IsHyphenPosition(a)
    ensures StripHyphens(u[..a + 1]) == StripHyphens(u[..a])
  {
    StripHyphensOfPrefix(u, a, a + 1);
    assert u[a..a + 1] == ['-'];
  }

  /** The hyphen-free text of the first two groups of a uuid and their hyphens. */
  lemma StripHyphensOfUuidHead(u: string)
    requires IsUuidText(u)
    ensures StripHyphens(u[..14]) == u[..8] + u[9..13]
  {
    assert u[..0] == [];
    AppendHexGroup(u, 0, 8);
    AppendHyphen(u, 8);
    AppendHexGroup(u, 9, 13);
    AppendHyphen(u, 13);
    assert u[..8] == u[0..8];
  }

  lemma StripHyphensOfUuid(u: string)
    requires IsUuidText(u)
    ensures StripHyphens(u) == HexDigitsOf(u)
  {
    StripHyphensOfUuidHead(u);
    AppendHexGroup(u, 14, 18);
    AppendHyphen(u, 18);
    AppendHexGroup(u, 19, 23);
    AppendHyphen(u, 23);
    AppendHexGroup(u, 24, 36);
    assert u[..36] == u;
  }

  /**
   * For every well-formed uuid the derived task id is 32 lowercase hex digits,
   * and it loses no information: putting the hyphens back yields the uuid.
   */
  lemma UuidRoundTrip(u: string)
    requires IsUuidText(u)
    ensures IsTaskId(TaskIdFromUuid(u))
    ensures UuidTextOf(TaskIdFromUuid(u)) == u
  {
    StripHyphensOfUuid(u);
    var id := TaskIdFromUuid(u);
    assert id == HexDigitsOf(u);
    forall i | 0 <= i < |id|
      ensures IsLowerHex(id[i])
    {
      if i < 8 { assert id[i] == u[i]; }
      else if i < 12 { assert id[i] == u[i + 1]; }
      else if i < 16 { assert id[i] == u[i + 2]; }
      else if i < 20 { assert id[i] == u[i + 3]; }
      else { assert id[i] == u[i + 4]; }
    }
    assert id[..8] == u[..8];
    assert id[8..12] == u[9..13];
    assert id[12..16] == u[14..18];
    assert id[16..20] == u[19..23];
    assert id[20..] == u[24..];
    assert u == u[..8] + "-" + u[9..13] + "-" + u[14..18] + "-" + u[19..23] + "-" + u[24..];
  }

  /** Distinct uuids from the oracle give distinct task ids. */
  lemma DistinctUuidsGiveDistinctIds(u: string, v: string)
    requires IsUuidText(u) && IsUuidText(v)
    requires u != v
    ensures TaskIdFromUuid(u) != TaskIdFromUuid(v)
  {
    UuidRoundTrip(u);
    UuidRoundTrip(v);
  }
}
