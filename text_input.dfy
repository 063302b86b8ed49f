/**
 * The text-entry side of the chat panel: JavaScript's `String.prototype.trim`,
 * the Enter-key submit gate and the submit button's disabled flag
 * (components/chat-panel.tsx).
 */
module TextInput {

  /** A code point `trim` strips: ECMAScript's WhiteSpace and LineTerminator sets. */
  predicate IsTrimmable(c: char) {
    c == '\t' || c == '\n' || c == '\U{000B}' || c == '\U{000C}' || c == '\r' || c == ' '
    || c == '\U{00A0}' || c == '\U{1680}' || ('\U{2000}' <= c <= '\U{200A}')
    || c == '\U{2028}' || c == '\U{2029}' || c == '\U{202F}' || c == '\U{205F}'
    || c == '\U{3000}' || c == '\U{FEFF}'
  }

  /** Every character of `s` is one that `trim` strips. */
  predicate AllTrimmable(s: string) {
    forall i :: 0 <= i < |s| ==> IsTrimmable(s[i])
  }

  /** The length of the longest trimmable prefix of `s`. */
  function LeadingCount(s: string): (n: nat)
    ensures n <= |s|
    ensures forall i :: 0 <= i < n ==> IsTrimmable(s[i])
    ensures n < |s| ==> !IsTrimmable(s[n])
  {
    if s == [] || !IsTrimmable(s[0]) then 0 else 1 + LeadingCount(s[1..])
  }

  /** The length of the longest trimmable suffix of `s`. */
  function TrailingCount(s: string): (n: nat)
    ensures n <= |s|
    ensures forall i :: |s| - n <= i < |s| ==> IsTrimmable(s[i])
    ensures n < |s| ==> !IsTrimmable(s[|s| - 1 - n])
  {
    if s == [] || !IsTrimmable(s[|s| - 1]) then 0 else 1 + TrailingCount(s[..|s| - 1])
  }

  /**
   * `s.trim()`: the contiguous middle part of `s` left after removing the
   * trimmable characters at both ends.
   */
  function Trim(s: string): (r: string)
    ensures LeadingCount(s) + |r| <= |s|
    ensures r == s[LeadingCount(s)..LeadingCount(s) + |r|]
    ensures forall i :: 0 <= i < |s| && !(LeadingCount(s) <= i < LeadingCount(s) + |r|) ==> IsTrimmable(s[i])
    ensures r != [] ==> !IsTrimmable(r[0]) && !IsTrimmable(r[|r| - 1])
    ensures r == [] <==> AllTrimmable(s)
  {
    var rest := s[LeadingCount(s)..];
    rest[..|rest| - TrailingCount(rest)]
  }

  /** `s.trim().length === 0` */
  function IsBlank(s: string): (b: bool)
    ensures b <==> AllTrimmable(s)
  {
    |Trim(s)| == 0
  }

  /** Trimming twice is trimming once. */
  lemma TrimIdempotent(s: string)
    ensures Trim(Trim(s)) == Trim(s)
  {
  }

  /** The fields of a keyboard event that the key handler reads. */
  datatype KeyEvent = KeyEvent(key: string, shiftKey: bool)

  /** What the key handler does with the event: `preventDefault()` and/or `form.requestSubmit()`. */
  datatype KeyEffect = KeyEffect(preventDefault: bool, requestSubmit: bool)

  const EnterKey: string := "Enter"

  /** The `onKeyDown` handler of the input textarea. */
  function EnterKeyEffect(ev: KeyEvent, isComposing: bool, enterDisabled: bool, input: string): (r: KeyEffect)
    ensures r.requestSubmit <==>
      ev.key == EnterKey && !ev.shiftKey && !isComposing && !enterDisabled && !AllTrimmable(input)
    ensures r.preventDefault <==> ev.key == EnterKey && !ev.shiftKey && !isComposing && !enterDisabled
  {
    if ev.key == EnterKey && !ev.shiftKey && !isComposing && !enterDisabled then
      if IsBlank(input) then KeyEffect(true, false) else KeyEffect(true, true)
    else
      KeyEffect(false, false)
  }

  /** The submit button's `disabled` attribute. */
  function SubmitDisabled(input: string, isLoading: bool): (r: bool)
    ensures r ==> !isLoading && AllTrimmable(input)
    ensures r <==> input == [] && !isLoading
  {
    |input| == 0 && !isLoading
  }

  /**
   * The button and the Enter key disagree on whitespace-only input: the
   * button is enabled for it, while Enter refuses to submit it.
   */
  lemma BlankInputButtonEnabledEnterRefused()
    ensures !SubmitDisabled(" ", false)
    ensures !EnterKeyEffect(KeyEvent(EnterKey, false), false, false, " ").requestSubmit
    ensures EnterKeyEffect(KeyEvent(EnterKey, false), false, false, " ").preventDefault
  {
  }
}
