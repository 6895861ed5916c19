/**
 * The module-global pattern of util/run.js, built from the marker `Error:`,
 * the platform line ending `os.EOL`, an optional `?` and the capture `(.*)`,
 * with the global flag `g`; and one `exec` call on it, as RegExpBuiltinExec
 * (section 22.2.7.2 of ECMA-262, 2024 edition) performs it for a global,
 * non-sticky, non-unicode regular expression: the scan starts at `lastIndex`,
 * a hit moves `lastIndex` to the end of the match, a miss resets it to 0.
 */
module ErrorRegex {
  import opened JsValues

  /** The value of `os.EOL`: "\n" on POSIX systems, "\r\n" on Windows. */
  datatype Eol = Lf | CrLf

  function EolText(eol: Eol): (text: string)
  {
    match eol
    case Lf => "\n"
    case CrLf => "\r\n"
  }

  /**
   * The `?` written after the line ending binds to its last character only,
   * so every character before that one is required.
   */
  function RequiredEol(eol: Eol): string
  {
    var t := EolText(eol);
    t[..|t| - 1]
  }

  /** The last character of the line ending, the one the `?` makes optional. */
  function OptionalEol(eol: Eol): char
  {
    var t := EolText(eol);
    t[|t| - 1]
  }

  const Marker: string := "Error:"

  /** The literal text a match must begin with. */
  function Literal(eol: Eol): string
  {
    Marker + RequiredEol(eol)
  }

  /**
   * The characters that `.` does not match without the `s` flag: the
   * LineTerminator code points of section 12.3 of ECMA-262.
   */
  predicate IsLineTerminator(c: char)
  {
    c == '\n' || c == '\r' || c == '\U{2028}' || c == '\U{2029}'
  }

  /** The pattern can start matching at `p`: its literal part occurs there. */
  predicate MarkerAt(s: string, p: nat, eol: Eol)
  {
    var lit := Literal(eol);
    p + |lit| <= |s| && s[p..p + |lit|] == lit
  }

  /** No match can start anywhere from `from` up to and including |s|. */
  predicate NoMarkerFrom(s: string, from: nat, eol: Eol)
  {
    forall p :: from <= p <= |s| ==> !MarkerAt(s, p, eol)
  }

  /** `p` is the leftmost position from `from` on where a match starts. */
  predicate FirstMarker(s: string, from: nat, p: nat, eol: Eol)
  {
    from <= p && MarkerAt(s, p, eol) &&
    forall q :: from <= q < p ==> !MarkerAt(s, q, eol)
  }

  /**
   * A successful match: it starts at `index`, the capture group `(.*)` is
   * `s[start..end]`, and `end` is where the whole match ends.
   */
  datatype Match = Match(index: nat, start: nat, end: nat)

  /** How far the greedy `.*` reaches from `q`: to the next line terminator or the end. */
  function LineEnd(s: string, q: nat): (e: nat)
    requires q <= |s|
    ensures q <= e <= |s|
    ensures e == |s| || IsLineTerminator(s[e])
    ensures forall k :: q <= k < e ==> !IsLineTerminator(s[k])
    decreases |s| - q
  {
    if q == |s| || IsLineTerminator(s[q]) then q else LineEnd(s, q + 1)
  }

  /**
   * The pattern's matcher tried at position `p` alone: the literal, then the
   * optional last character of the line ending (greedy, so taken whenever it
   * is there), then the longest run of characters other than line terminators.
   */
  function MatchAt(s: string, p: nat, eol: Eol): (r: Option<Match>)
    ensures r.Some? <==> MarkerAt(s, p, eol)
    ensures r.Some? ==> r.value.index == p && r.value.start <= r.value.end <= |s|
    ensures r.Some? ==>
      var lit := Literal(eol);
      p + |lit| <= r.value.start &&
      (s[p..r.value.start] == lit || s[p..r.value.start] == lit + [OptionalEol(eol)])
    ensures r.Some? && r.value.start == p + |Literal(eol)| ==>
      r.value.start == |s| || s[r.value.start] != OptionalEol(eol)
    ensures r.Some? ==>
      (forall k :: r.value.start <= k < r.value.end ==> !IsLineTerminator(s[k])) &&
      (r.value.end == |s| || IsLineTerminator(s[r.value.end]))
  {
    if MarkerAt(s, p, eol) then
      var after := p + |Literal(eol)|;
      var start := if after < |s| && s[after] == OptionalEol(eol) then after + 1 else after;
      Some(Match(p, start, LineEnd(s, start)))
    else
      None
  }

  /** The leftmost match that starts at `from` or later. */
  function Search(s: string, from: nat, eol: Eol): (r: Option<Match>)
    ensures r.None? <==> NoMarkerFrom(s, from, eol)
    ensures r.Some? ==> FirstMarker(s, from, r.value.index, eol)
    ensures r.Some? ==> Some(r.value) == MatchAt(s, r.value.index, eol)
    decreases |s| + 1 - from
  {
    if from > |s| then
      None
    else
      match MatchAt(s, from, eol)
      case Some(m) => Some(m)
      case None => Search(s, from + 1, eol)
  }

  /** What `errRE.exec(s)` returns, and the value it leaves in `errRE.lastIndex`. */
  datatype ExecResult = ExecResult(found: Option<Match>, lastIndex: nat)

  /**
   * One `exec` of the global pattern on `s` with the regular expression's
   * current `lastIndex`.
   */
  function Exec(s: string, lastIndex: nat, eol: Eol): (r: ExecResult)
    ensures r.found.None? <==> NoMarkerFrom(s, lastIndex, eol)
    ensures r.found.Some? ==>
      FirstMarker(s, lastIndex, r.found.value.index, eol) &&
      Some(r.found.value) == MatchAt(s, r.found.value.index, eol)
    ensures r.found.None? ==> r.lastIndex == 0
    ensures r.found.Some? ==> r.lastIndex == r.found.value.end && r.lastIndex > lastIndex
  {
    if lastIndex > |s| then
      ExecResult(None, 0)
    else
      match Search(s, lastIndex, eol)
      case None => ExecResult(None, 0)
      case Some(m) => ExecResult(Some(m), m.end)
  }
}
