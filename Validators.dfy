/**
 * `RegexPasswordValidator` (api/validators.py): a password is accepted when
 * the pattern `^(?=.*[A-Z])(?=.*[a-z])(?=.*\d)(?=.*[^A-Za-z\d]).+$` matches
 * at its start.
 *
 * `PatternMatches` states what that pattern means, lookahead by lookahead,
 * including the detail that `.` does not cross a line break while the
 * negated class `[^A-Za-z\d]` does match one, and that `$` also matches
 * just before a final line break. `Validate` decides the same question by
 * looking at the first line only, and its contract proves the two agree.
 */
module Validators {
  import opened Basics

  /** The error code the validator raises with. */
  const INVALID_PASSWORD_FORMAT := "invalid_password_format"

  datatype Verdict = Accepted | Rejected(code: string)

  /** The classes of the four lookaheads: `[A-Z]`, `[a-z]`, `\d`, `[^A-Za-z\d]`. */
  datatype CharClass = Upper | Lower | Digit | Special

  predicate InClass(ch: char, cls: CharClass)
  {
    match cls
    case Upper => IsUpper(ch)
    case Lower => IsLower(ch)
    case Digit => IsDigit(ch)
    case Special => !IsUpper(ch) && !IsLower(ch) && !IsDigit(ch)
  }

  /** `.` matches every character except a line break. */
  predicate NoBreakBefore(p: string, k: nat)
    requires k <= |p|
  {
    forall j :: 0 <= j < k ==> p[j] != '\n'
  }

  /** `(?=.*[cls])` at the start: some character of the class is reachable
      through characters that `.` matches. */
  predicate Lookahead(p: string, cls: CharClass)
  {
    exists i :: 0 <= i < |p| && NoBreakBefore(p, i) && InClass(p[i], cls)
  }

  /** `.+$` at the start: at least one non-break character, then the end of
      the text or a line break that is its last character. */
  predicate BodyToEnd(p: string)
  {
    exists k :: 1 <= k <= |p| && NoBreakBefore(p, k) && (k == |p| || (k == |p| - 1 && p[k] == '\n'))
  }

  predicate PatternMatches(p: string)
  {
    && Lookahead(p, Upper)
    && Lookahead(p, Lower)
    && Lookahead(p, Digit)
    && Lookahead(p, Special)
    && BodyToEnd(p)
  }

  /** The text before the first line break. */
  function FirstLine(p: string): (line: string)
    ensures |line| <= |p| && line == p[..|line|]
    ensures '\n' !in line
    ensures |line| < |p| ==> p[|line|] == '\n'
  {
    if p == [] || p[0] == '\n' then [] else [p[0]] + FirstLine(p[1..])
  }

  predicate HasClass(s: string, cls: CharClass)
  {
    exists i :: 0 <= i < |s| && InClass(s[i], cls)
  }

  /** `.` reaches exactly the positions up to the end of the first line. */
  lemma NoBreakUpToFirstLine(p: string, k: nat)
    requires k <= |p|
    ensures NoBreakBefore(p, k) <==> k <= |FirstLine(p)|
  {
    var line := FirstLine(p);
    if k <= |line| {
      forall j | 0 <= j < k ensures p[j] != '\n' {
        assert p[j] == line[j];
      }
    } else {
      assert p[|line|] == '\n';
    }
  }

  lemma LookaheadOnFirstLine(p: string, cls: CharClass)
    ensures Lookahead(p, cls) <==>
      HasClass(FirstLine(p), cls) || (cls == Special && |FirstLine(p)| < |p|)
  {
    var line := FirstLine(p);
    if Lookahead(p, cls) {
      var i :| 0 <= i < |p| && NoBreakBefore(p, i) && InClass(p[i], cls);
      NoBreakUpToFirstLine(p, i);
      if i < |line| {
        assert line[i] == p[i];
      }
    }
    if HasClass(line, cls) {
      var i :| 0 <= i < |line| && InClass(line[i], cls);
      NoBreakUpToFirstLine(p, i);
      assert p[i] == line[i];
    }
    if cls == Special && |line| < |p| {
      NoBreakUpToFirstLine(p, |line|);
      assert InClass(p[|line|], Special);
    }
  }

  lemma BodyOnFirstLine(p: string)
    ensures BodyToEnd(p) <==> |FirstLine(p)| > 0 && |p| <= |FirstLine(p)| + 1
  {
    var line := FirstLine(p);
    if BodyToEnd(p) {
      var k :| 1 <= k <= |p| && NoBreakBefore(p, k) && (k == |p| || (k == |p| - 1 && p[k] == '\n'));
      NoBreakUpToFirstLine(p, k);
    }
    if |line| > 0 && |p| <= |line| + 1 {
      NoBreakUpToFirstLine(p, |line|);
    }
  }

  /** `validate(password, user)`: the pattern decided on the first line; the
      `user` argument plays no part. */
  function Validate<U>(password: string, user: U): (r: Verdict)
    ensures r == Accepted <==> PatternMatches(password)
    ensures r != Accepted ==> r == Rejected(INVALID_PASSWORD_FORMAT)
  {
    LookaheadOnFirstLine(password, Upper);
    LookaheadOnFirstLine(password, Lower);
    LookaheadOnFirstLine(password, Digit);
    LookaheadOnFirstLine(password, Special);
    BodyOnFirstLine(password);
    var line := FirstLine(password);
    if && |line| > 0
       && |password| <= |line| + 1
       && HasClass(line, Upper)
       && HasClass(line, Lower)
       && HasClass(line, Digit)
       && (HasClass(line, Special) || |line| < |password|)
    then Accepted
    else Rejected(INVALID_PASSWORD_FORMAT)
  }

  /** Without line breaks the verdict is the plain reading of the rule: at
      least one upper-case letter, one lower-case letter, one digit and one
      other character. */
  lemma AcceptedIffAllClasses<U>(password: string, user: U)
    requires '\n' !in password
    ensures Validate(password, user) == Accepted <==>
      HasClass(password, Upper) && HasClass(password, Lower) &&
      HasClass(password, Digit) && HasClass(password, Special)
  {
    var line := FirstLine(password);
    assert line == password;
    if HasClass(password, Upper) {
      assert |password| > 0;
    }
  }

  /** An accepted password holds an upper-case letter, a lower-case letter
      and a digit at three different places of its first line, plus a
      fourth character: another one on that line or the line break. */
  lemma AcceptedIsLong<U>(password: string, user: U)
    ensures Validate(password, user) == Accepted ==> |password| >= 4
  {
    var line := FirstLine(password);
    if Validate(password, user) == Accepted {
      var a :| 0 <= a < |line| && InClass(line[a], Upper);
      var b :| 0 <= b < |line| && InClass(line[b], Lower);
      var c :| 0 <= c < |line| && InClass(line[c], Digit);
      assert a != b && b != c && a != c;
      if HasClass(line, Special) {
        var d :| 0 <= d < |line| && InClass(line[d], Special);
        assert d != a && d != b && d != c;
      }
    }
  }

  /** The empty password and every password shorter than four characters
      is rejected. */
  lemma ShortPasswordRejected<U>(password: string, user: U)
    requires |password| < 4
    ensures Validate(password, user) == Rejected(INVALID_PASSWORD_FORMAT)
  {
    AcceptedIsLong(password, user);
  }

  /** A single final line break stands in for the special character, while
      any text after a line break makes the password fail. */
  lemma LineBreakExamples<U>(user: U)
    ensures Validate("Aa1\n", user) == Accepted
    ensures Validate("Aa1!\nB", user) == Rejected(INVALID_PASSWORD_FORMAT)
  {
    assert FirstLine("Aa1\n") == "Aa1";
    assert InClass("Aa1"[0], Upper) && InClass("Aa1"[1], Lower) && InClass("Aa1"[2], Digit);
    assert FirstLine("Aa1!\nB") == "Aa1!";
  }
}
