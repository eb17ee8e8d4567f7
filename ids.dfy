/**
 * The folder controller's id handling: `sanitize` turns null or undefined
 * into null and anything else into its trimmed string form, and `isValidId`
 * asks the ObjectId library about the sanitized value.
 */
module Ids {
  import opened TaskModel
  import opened Runtime

  /** The characters `String.prototype.trim` removes: white space and line terminators. */
  predicate IsTrimmable(c: char) {
    c == '\t' || c == '\n' || c == '\U{000B}' || c == '\U{000C}' || c == '\r'
    || c == ' ' || c == '\U{00A0}' || c == '\U{1680}'
    || ('\U{2000}' <= c <= '\U{200A}')
    || c == '\U{2028}' || c == '\U{2029}' || c == '\U{202F}' || c == '\U{205F}'
    || c == '\U{3000}' || c == '\U{FEFF}'
  }

  /**
   * `r` is the window `s[i..i + |r|]` of `s`, and every character of `s`
   * outside that window is white space.
   */
  ghost predicate CutAt(s: string, r: string, i: int) {
    && 0 <= i && i + |r| <= |s|
    && (forall k | 0 <= k < |r| :: r[k] == s[i + k])
    && (forall k | 0 <= k < i :: IsTrimmable(s[k]))
    && (forall k | i + |r| <= k < |s| :: IsTrimmable(s[k]))
  }

  /** The index of the first character at or after `i` that is not white space, or `|s|`. */
  function SkipLeading(s: string, i: nat): (r: nat)
    requires i <= |s|
    ensures i <= r <= |s|
    ensures forall k | i <= k < r :: IsTrimmable(s[k])
    ensures r == |s| || !IsTrimmable(s[r])
    decreases |s| - i
  {
    if i < |s| && IsTrimmable(s[i]) then SkipLeading(s, i + 1) else i
  }

  /** The end of the text in `s[lo..j]` once trailing white space is cut, never below `lo`. */
  function SkipTrailing(s: string, lo: nat, j: nat): (r: nat)
    requires lo <= j <= |s|
    ensures lo <= r <= j
    ensures forall k | r <= k < j :: IsTrimmable(s[k])
    ensures r == lo || !IsTrimmable(s[r - 1])
  {
    if j > lo && IsTrimmable(s[j - 1]) then SkipTrailing(s, lo, j - 1) else j
  }

  /**
   * `String.prototype.trim`: the result is a window of `s` with only white
   * space cut away at both ends, and it neither starts nor ends with white
   * space.
   */
  function Trim(s: string): (r: string)
    ensures |r| <= |s|
    ensures exists i :: CutAt(s, r, i)
    ensures r == [] || (!IsTrimmable(r[0]) && !IsTrimmable(r[|r| - 1]))
  {
    var i := SkipLeading(s, 0);
    var j := SkipTrailing(s, i, |s|);
    assert CutAt(s, s[i..j], i);
    s[i..j]
  }

  /** A string with no white space at either end is its own trim. */
  lemma {:induction false} TrimOfTrimmed(s: string)
    requires s == [] || (!IsTrimmable(s[0]) && !IsTrimmable(s[|s| - 1]))
    ensures Trim(s) == s
  {
    assert SkipLeading(s, 0) == 0;
    assert SkipTrailing(s, 0, |s|) == |s|;
    assert s[0..|s|] == s;
  }

  /** Trimming twice is trimming once. */
  lemma TrimIdempotent(s: string)
    ensures Trim(Trim(s)) == Trim(s)
  {
    TrimOfTrimmed(Trim(s));
  }

  /** `sanitize`: null stays null, a string is trimmed. */
  function Sanitize(v: Option<string>): (r: Option<string>)
    ensures r.None? <==> v.None?
    ensures r.Some? ==> r.value == Trim(v.value)
  {
    match v
    case None => None
    case Some(s) => Some(Trim(s))
  }

  /** Sanitizing an already sanitized value changes nothing. */
  lemma SanitizeIdempotent(v: Option<string>)
    ensures Sanitize(Sanitize(v)) == Sanitize(v)
  {
    if v.Some? {
      TrimIdempotent(v.value);
    }
  }

  /** `isValidId`: null is never valid; a string is judged after trimming. */
  predicate IsValidId(env: Env, v: Option<string>)
    ensures IsValidId(env, v) <==> v.Some? && env.objectIdIsValid(Trim(v.value))
  {
    match Sanitize(v)
    case None => false
    case Some(s) => env.objectIdIsValid(s)
  }

  /**
   * The handlers call `isValidId` on a value they already sanitized; the
   * second sanitizing makes no difference to the verdict.
   */
  lemma IsValidIdOfSanitized(env: Env, v: Option<string>)
    ensures IsValidId(env, Sanitize(v)) == IsValidId(env, v)
  {
    if v.Some? {
      var w := Sanitize(v);
      SanitizeIdempotent(v);
      assert Sanitize(w) == w;
      assert IsValidId(env, w) == env.objectIdIsValid(w.value);
    }
  }
}
