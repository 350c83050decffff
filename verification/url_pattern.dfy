/** The two regular expressions of the URL parser, with Go RE2 semantics for
    `FindStringSubmatch`:

      port form   `(\S+)://(\S+):([0-9]+)`
      host form   `(\S+)://(\S+)`

    A match is described by the indices that delimit its groups. The search
    is unanchored and leftmost-first: among all matches the one that starts
    earliest wins, and among those the greedy groups decide, the first group
    as long as possible, then the second, then the third. Each form has a
    relational definition (`PortMatch`, `HostMatch`), the preference order,
    and an executable search proved to return the preferred match. The `(?m)`
    flag only changes `^` and `$`, which the patterns do not use. */
module UrlPattern {
  import opened Wrappers
  import opened Decimal

  /** RE2's `\s` is `[\t\n\f\r ]`; `\S` is every other character. */
  predicate IsSpace(c: char) {
    c == '\t' || c == '\n' || c == '\U{000C}' || c == '\r' || c == ' '
  }

  /** `u[a..b]` is a run of `\S`. */
  predicate NoSpaceIn(u: string, a: int, b: int)
    requires 0 <= a <= b <= |u|
  {
    forall k :: a <= k < b ==> !IsSpace(u[k])
  }

  /** `u[a..b]` is a run of `[0-9]`. */
  predicate DigitsIn(u: string, a: int, b: int)
    requires 0 <= a <= b <= |u|
  {
    forall k :: a <= k < b ==> IsDigit(u[k])
  }

  /** The literal `://` starts at index `i`. */
  predicate SepAt(u: string, i: int) {
    0 <= i && i + 3 <= |u| && u[i] == ':' && u[i + 1] == '/' && u[i + 2] == '/'
  }

  // ---------------------------------------------------------------------
  // Port form: group 1 is u[start..sep], group 2 is u[sep+3..colon],
  // group 3 is u[colon+1..end].
  // ---------------------------------------------------------------------

  datatype PortSpan = PortSpan(start: nat, sep: nat, colon: nat, end: nat)

  predicate PortMatch(u: string, s: int, i: int, j: int, e: int) {
    && 0 <= s < i
    && SepAt(u, i)
    && i + 3 < j
    && j + 1 < e <= |u|
    && u[j] == ':'
    && NoSpaceIn(u, s, i)
    && NoSpaceIn(u, i + 3, j)
    && DigitsIn(u, j + 1, e)
  }

  predicate IsPortMatch(u: string, m: PortSpan) {
    PortMatch(u, m.start, m.sep, m.colon, m.end)
  }

  ghost predicate HasPortMatch(u: string) {
    exists s, i, j, e :: PortMatch(u, s, i, j, e)
  }

  /** `m` is at least as preferred as the match (s, i, j, e): it starts
      earlier, or starts there with a longer first group, and so on. */
  predicate PortPreferred(m: PortSpan, s: int, i: int, j: int, e: int) {
    || m.start < s
    || (m.start == s && m.sep > i)
    || (m.start == s && m.sep == i && m.colon > j)
    || (m.start == s && m.sep == i && m.colon == j && m.end >= e)
  }

  /** `m` is the match `FindStringSubmatch` reports for the port form. */
  ghost predicate IsLeftmostFirstPort(u: string, m: PortSpan) {
    && IsPortMatch(u, m)
    && forall s, i, j, e :: PortMatch(u, s, i, j, e) ==> PortPreferred(m, s, i, j, e)
  }

  /** Greedy `[0-9]+` from index k: the end of the digit run. */
  function DigitRunEnd(u: string, k: nat): (r: nat)
    requires k <= |u|
    ensures k <= r <= |u| && DigitsIn(u, k, r)
    ensures r == |u| || !IsDigit(u[r])
    decreases |u| - k
  {
    if k == |u| || !IsDigit(u[k]) then k else DigitRunEnd(u, k + 1)
  }

  /** No digit run from k extends past DigitRunEnd(u, k). */
  lemma DigitRunEndIsLongest(u: string, k: nat, e: int)
    requires k <= e <= |u|
    ensures DigitsIn(u, k, e) ==> e <= DigitRunEnd(u, k)
  {
  }

  /** Index j can close group 2 when group 2 starts at h: a `:` followed by a
      digit, with only `\S` between h and j. */
  predicate ColonCandidate(u: string, h: nat, j: int) {
    h < j && j + 1 < |u| && u[j] == ':' && IsDigit(u[j + 1]) && NoSpaceIn(u, h, j)
  }

  /** Greedy group 2: the last colon candidate in (h, k). */
  function LastColon(u: string, h: nat, k: nat): (r: Option<nat>)
    requires k <= |u|
    ensures r.Some? ==> h < r.value < k && ColonCandidate(u, h, r.value)
    ensures r.Some? ==> forall j :: r.value < j < k ==> !ColonCandidate(u, h, j)
    ensures r.None? ==> forall j :: h < j < k ==> !ColonCandidate(u, h, j)
    decreases k
  {
    if k <= h + 1 then None
    else if ColonCandidate(u, h, k - 1) then Some(k - 1)
    else LastColon(u, h, k - 1)
  }

  /** Index i can close group 1 when the match starts at s: a `://` preceded
      by `\S` only, after which groups 2 and 3 can still match. */
  predicate SchemeCandidate(u: string, s: nat, i: int) {
    s < i && SepAt(u, i) && NoSpaceIn(u, s, i) && LastColon(u, i + 3, |u|).Some?
  }

  /** Greedy group 1: the last scheme candidate in (s, k). */
  function LastScheme(u: string, s: nat, k: nat): (r: Option<nat>)
    requires k <= |u|
    ensures r.Some? ==> s < r.value < k && SchemeCandidate(u, s, r.value)
    ensures r.Some? ==> forall i :: r.value < i < k ==> !SchemeCandidate(u, s, i)
    ensures r.None? ==> forall i :: s < i < k ==> !SchemeCandidate(u, s, i)
    decreases k
  {
    if k <= s + 1 then None
    else if SchemeCandidate(u, s, k - 1) then Some(k - 1)
    else LastScheme(u, s, k - 1)
  }

  /** Leftmost start: the first s at or after `from` where group 1 can close. */
  function FirstPortStart(u: string, from: nat): (r: Option<(nat, nat)>)
    requires from <= |u|
    ensures r.Some? ==> from <= r.value.0 && LastScheme(u, r.value.0, |u|) == Some(r.value.1)
    ensures r.Some? ==> forall s :: from <= s < r.value.0 ==> LastScheme(u, s, |u|).None?
    ensures r.None? ==> forall s :: from <= s <= |u| ==> LastScheme(u, s, |u|).None?
    decreases |u| - from
  {
    if from == |u| then None
    else match LastScheme(u, from, |u|)
      case Some(i) => Some((from, i))
      case None => FirstPortStart(u, from + 1)
  }

  /** Every match of the port form is seen by the candidate predicates. */
  lemma PortMatchCandidates(u: string, s: int, i: int, j: int, e: int)
    ensures PortMatch(u, s, i, j, e) ==> ColonCandidate(u, i + 3, j) && SchemeCandidate(u, s, i)
  {
    if PortMatch(u, s, i, j, e) {
      assert IsDigit(u[j + 1]);
      assert ColonCandidate(u, i + 3, j);
    }
  }

  /** `FindStringSubmatch` for the port form: None exactly when nothing
      matches, otherwise the leftmost-first match. */
  function FindPortMatch(u: string): (r: Option<PortSpan>)
    ensures r.None? ==> forall s, i, j, e :: !PortMatch(u, s, i, j, e)
    ensures r.Some? ==> IsLeftmostFirstPort(u, r.value)
  {
    match FirstPortStart(u, 0)
    case None =>
      PortNoneSound(u);
      None
    case Some((s, i)) =>
      var j := LastColon(u, i + 3, |u|).value;
      var m := PortSpan(s, i, j, DigitRunEnd(u, j + 1));
      PortSomeSound(u, m);
      Some(m)
  }

  lemma PortNoneSound(u: string)
    requires FirstPortStart(u, 0).None?
    ensures forall s, i, j, e :: !PortMatch(u, s, i, j, e)
  {
    forall s, i, j, e
      ensures !PortMatch(u, s, i, j, e)
    {
      PortMatchCandidates(u, s, i, j, e);
      assert 0 <= s <= |u| ==> LastScheme(u, s, |u|).None?;
    }
  }

  lemma PortSomeSound(u: string, m: PortSpan)
    requires FirstPortStart(u, 0) == Some((m.start, m.sep))
    requires LastColon(u, m.sep + 3, |u|) == Some(m.colon)
    requires m.end == DigitRunEnd(u, m.colon + 1)
    ensures IsLeftmostFirstPort(u, m)
  {
    assert IsDigit(u[m.colon + 1]);
    assert IsPortMatch(u, m);
    forall s, i, j, e | PortMatch(u, s, i, j, e)
      ensures PortPreferred(m, s, i, j, e)
    {
      PortMatchCandidates(u, s, i, j, e);
      var earlier := LastScheme(u, s, |u|);
      assert s < m.start ==> earlier.None?;
      if s == m.start && i == m.sep && j == m.colon {
        DigitRunEndIsLongest(u, j + 1, e);
      }
    }
  }

  // ---------------------------------------------------------------------
  // Host form: group 1 is u[start..sep], group 2 is u[sep+3..end].
  // ---------------------------------------------------------------------

  datatype HostSpan = HostSpan(start: nat, sep: nat, end: nat)

  predicate HostMatch(u: string, s: int, i: int, e: int) {
    && 0 <= s < i
    && SepAt(u, i)
    && i + 3 < e <= |u|
    && NoSpaceIn(u, s, i)
    && NoSpaceIn(u, i + 3, e)
  }

  predicate IsHostMatch(u: string, m: HostSpan) {
    HostMatch(u, m.start, m.sep, m.end)
  }

  ghost predicate HasHostMatch(u: string) {
    exists s, i, e :: HostMatch(u, s, i, e)
  }

  predicate HostPreferred(m: HostSpan, s: int, i: int, e: int) {
    || m.start < s
    || (m.start == s && m.sep > i)
    || (m.start == s && m.sep == i && m.end >= e)
  }

  /** `m` is the match `FindStringSubmatch` reports for the host form. */
  ghost predicate IsLeftmostFirstHost(u: string, m: HostSpan) {
    && IsHostMatch(u, m)
    && forall s, i, e :: HostMatch(u, s, i, e) ==> HostPreferred(m, s, i, e)
  }

  /** Greedy `\S+` from index k: the end of the run of non-space characters. */
  function TokenEnd(u: string, k: nat): (r: nat)
    requires k <= |u|
    ensures k <= r <= |u| && NoSpaceIn(u, k, r)
    ensures r == |u| || IsSpace(u[r])
    decreases |u| - k
  {
    if k == |u| || IsSpace(u[k]) then k else TokenEnd(u, k + 1)
  }

  lemma TokenEndIsLongest(u: string, k: nat, e: int)
    requires k <= e <= |u|
    ensures NoSpaceIn(u, k, e) ==> e <= TokenEnd(u, k)
  {
  }

  /** Index i can close group 1 of the host form when the match starts at s:
      a `://` preceded by `\S` only and followed by at least one `\S`. */
  predicate HostSepCandidate(u: string, s: nat, i: int) {
    s < i && SepAt(u, i) && NoSpaceIn(u, s, i) && i + 3 < |u| && !IsSpace(u[i + 3])
  }

  function LastHostSep(u: string, s: nat, k: nat): (r: Option<nat>)
    requires k <= |u|
    ensures r.Some? ==> s < r.value < k && HostSepCandidate(u, s, r.value)
    ensures r.Some? ==> forall i :: r.value < i < k ==> !HostSepCandidate(u, s, i)
    ensures r.None? ==> forall i :: s < i < k ==> !HostSepCandidate(u, s, i)
    decreases k
  {
    if k <= s + 1 then None
    else if HostSepCandidate(u, s, k - 1) then Some(k - 1)
    else LastHostSep(u, s, k - 1)
  }

  function FirstHostStart(u: string, from: nat): (r: Option<(nat, nat)>)
    requires from <= |u|
    ensures r.Some? ==> from <= r.value.0 && LastHostSep(u, r.value.0, |u|) == Some(r.value.1)
    ensures r.Some? ==> forall s :: from <= s < r.value.0 ==> LastHostSep(u, s, |u|).None?
    ensures r.None? ==> forall s :: from <= s <= |u| ==> LastHostSep(u, s, |u|).None?
    decreases |u| - from
  {
    if from == |u| then None
    else match LastHostSep(u, from, |u|)
      case Some(i) => Some((from, i))
      case None => FirstHostStart(u, from + 1)
  }

  lemma HostMatchCandidate(u: string, s: int, i: int, e: int)
    ensures HostMatch(u, s, i, e) ==> HostSepCandidate(u, s, i)
  {
    if HostMatch(u, s, i, e) {
      assert !IsSpace(u[i + 3]);
    }
  }

  /** `FindStringSubmatch` for the host form: None exactly when nothing
      matches, otherwise the leftmost-first match. */
  function FindHostMatch(u: string): (r: Option<HostSpan>)
    ensures r.None? ==> forall s, i, e :: !HostMatch(u, s, i, e)
    ensures r.Some? ==> IsLeftmostFirstHost(u, r.value)
  {
    match FirstHostStart(u, 0)
    case None =>
      HostNoneSound(u);
      None
    case Some((s, i)) =>
      var m := HostSpan(s, i, TokenEnd(u, i + 3));
      HostSomeSound(u, m);
      Some(m)
  }

  lemma HostNoneSound(u: string)
    requires FirstHostStart(u, 0).None?
    ensures forall s, i, e :: !HostMatch(u, s, i, e)
  {
    forall s, i, e
      ensures !HostMatch(u, s, i, e)
    {
      HostMatchCandidate(u, s, i, e);
      assert 0 <= s <= |u| ==> LastHostSep(u, s, |u|).None?;
    }
  }

  lemma HostSomeSound(u: string, m: HostSpan)
    requires FirstHostStart(u, 0) == Some((m.start, m.sep))
    requires m.end == TokenEnd(u, m.sep + 3)
    ensures IsLeftmostFirstHost(u, m)
  {
    assert IsHostMatch(u, m);
    forall s, i, e | HostMatch(u, s, i, e)
      ensures HostPreferred(m, s, i, e)
    {
      HostMatchCandidate(u, s, i, e);
      var earlier := LastHostSep(u, s, |u|);
      assert s < m.start ==> earlier.None?;
      if s == m.start && i == m.sep {
        TokenEndIsLongest(u, i + 3, e);
      }
    }
  }
}
