/**
 * Composite formatting as string.Format does it for the plugin's templates:
 * `{k}` is replaced by the k-th argument, `{{` and `}}` stand for single
 * braces, and anything else involving a brace raises a FormatException,
 * here the result None.
 */
module Formatting {
  import opened Wrappers
  import opened Text

  /** Text with no brace in it is copied through formatting unchanged. */
  predicate BraceFree(s: string) {
    forall i :: 0 <= i < |s| ==> s[i] != '{' && s[i] != '}'
  }

  /** Number of decimal digits at the start of `s`. */
  function LeadingDigits(s: string): (n: nat)
    ensures n <= |s|
    ensures AllDigits(s[..n])
    ensures n < |s| ==> !IsDigit(s[n])
  {
    if s != [] && IsDigit(s[0]) then 1 + LeadingDigits(s[1..]) else 0
  }

  function Prepend(p: string, r: Option<string>): Option<string> {
    match r
    case Some(s) => Some(p + s)
    case None => None
  }

  /** string.Format(t, args); None where .NET throws a FormatException. */
  function Format(t: string, args: seq<string>): Option<string>
    decreases |t|
  {
    if t == [] then Some("")
    else if t[0] == '{' then
      if 1 < |t| && t[1] == '{' then Prepend("{", Format(t[2..], args))
      else
        var n := LeadingDigits(t[1..]);
        if n == 0 || 1 + n == |t| || t[1 + n] != '}' then None
        else
          var k := DigitsValue(t[1..][..n]);
          if k < |args| then Prepend(args[k], Format(t[2 + n..], args)) else None
    else if t[0] == '}' then
      if 1 < |t| && t[1] == '}' then Prepend("}", Format(t[2..], args)) else None
    else Prepend(t[..1], Format(t[1..], args))
  }

  /** A brace-free prefix of a template reaches the output verbatim. */
  lemma {:induction false} FormatBraceFree(s: string, rest: string, args: seq<string>)
    requires BraceFree(s)
    ensures Format(s + rest, args) == Prepend(s, Format(rest, args))
  {
    if s == [] {
      assert s + rest == rest;
      match Format(rest, args)
      case None =>
      case Some(out) =>
        assert s + out == out;
    } else {
      var t := s + rest;
      assert t[0] == s[0] && t[..1] == s[..1];
      assert t[1..] == s[1..] + rest;
      FormatBraceFree(s[1..], rest, args);
      assert Format(t, args) == Prepend(s[..1], Prepend(s[1..], Format(rest, args)));
      match Format(rest, args)
      case None =>
      case Some(out) =>
        assert s[..1] + (s[1..] + out) == s + out;
    }
  }

  /** Formatting with no placeholder at all returns the template. */
  lemma FormatIdentity(s: string, args: seq<string>)
    requires BraceFree(s)
    ensures Format(s, args) == Some(s)
  {
    FormatBraceFree(s, "", args);
    assert s + "" == s;
  }

  /** `{k}` is replaced by the k-th argument, whatever that argument contains. */
  lemma FormatPlaceholder(k: nat, rest: string, args: seq<string>)
    requires k < 10 && k < |args|
    ensures Format("{" + [DigitChar(k)] + "}" + rest, args) == Prepend(args[k], Format(rest, args))
  {
    var t := "{" + [DigitChar(k)] + "}" + rest;
    assert t[1..][1..] == "}" + rest;
    assert LeadingDigits(t[1..]) == 1;
    assert t[1..][..1] == [DigitChar(k)];
    assert [DigitChar(k)][..0] == [];
    assert DigitsValue([DigitChar(k)]) == k;
    assert t[3..] == rest;
  }

  /** A placeholder with no matching argument raises a FormatException. */
  lemma FormatMissingArgument(k: nat, rest: string, args: seq<string>)
    requires k < 10 && |args| <= k
    ensures Format("{" + [DigitChar(k)] + "}" + rest, args) == None
  {
    var t := "{" + [DigitChar(k)] + "}" + rest;
    assert t[1..][1..] == "}" + rest;
    assert LeadingDigits(t[1..]) == 1;
    assert t[1..][..1] == [DigitChar(k)];
    assert [DigitChar(k)][..0] == [];
    assert DigitsValue([DigitChar(k)]) == k;
  }
}
