/**
 * `checkPasswordStrength(pass)`, written identically in
 * src/components/Auth.js and src/components/ResetPassword.js: two anchored
 * regular expressions made of lookaheads. Every lookahead starts with `.*`
 * or `.{n,}`, and `.` does not match a line terminator, so only the text
 * before the first line terminator is examined.
 */
module PasswordStrength {
  import opened Text

  datatype Strength = Weak | Medium | Strong

  /** The order of the three levels. */
  function Rank(s: Strength): nat {
    match s
    case Weak => 0
    case Medium => 1
    case Strong => 2
  }

  /** The text before the first line terminator: what `.*` can reach from the start. */
  function FirstLine(p: string): (r: string)
    ensures r <= p
    ensures forall i :: 0 <= i < |r| ==> !IsLineTerminator(r[i])
    ensures |r| < |p| ==> IsLineTerminator(p[|r|])
  {
    if |p| == 0 || IsLineTerminator(p[0]) then "" else [p[0]] + FirstLine(p[1..])
  }

  /** `(?=.*[x])` at the start: some character of the class before the first line terminator. */
  predicate Has(line: string, inClass: char -> bool) {
    exists i :: 0 <= i < |line| && inClass(line[i])
  }

  /** `[!@#$%^&*]`. */
  predicate IsSpecial(c: char) {
    c == '!' || c == '@' || c == '#' || c == '$' || c == '%' || c == '^' || c == '&' || c == '*'
  }

  /** `[a-zA-Z]`. */
  predicate IsLetter(c: char) {
    IsLowerAscii(c) || IsUpperAscii(c)
  }

  /** `/^(?=.*[a-z])(?=.*[A-Z])(?=.*[0-9])(?=.*[!@#$%^&*])(?=.{8,})/`. */
  predicate StrongTest(p: string) {
    var l := FirstLine(p);
    Has(l, IsLowerAscii) && Has(l, IsUpperAscii) && Has(l, IsDigit) && Has(l, IsSpecial) && |l| >= 8
  }

  /** `/^(?=.*[a-zA-Z])(?=.*[0-9])(?=.{6,})/`. */
  predicate MediumTest(p: string) {
    var l := FirstLine(p);
    Has(l, IsLetter) && Has(l, IsDigit) && |l| >= 6
  }

  /** The strong test first, then the medium one, else weak. */
  function Classify(p: string): Strength {
    if StrongTest(p) then Strong else if MediumTest(p) then Medium else Weak
  }

  /** Every strong password also passes the medium test, so the order of the two tests only picks the higher level. */
  lemma StrongPassesMedium(p: string)
    ensures StrongTest(p) ==> MediumTest(p)
    ensures Classify(p) != Weak <==> MediumTest(p)
  {
    if StrongTest(p) {
      var l := FirstLine(p);
      var i :| 0 <= i < |l| && IsLowerAscii(l[i]);
      assert IsLetter(l[i]);
    }
  }

  /** A weak password is one whose first line is short, or has no letter, or has no digit. */
  lemma WeakIff(p: string)
    ensures Classify(p) == Weak <==>
      |FirstLine(p)| < 6 || !Has(FirstLine(p), IsLetter) || !Has(FirstLine(p), IsDigit)
  {
    StrongPassesMedium(p);
  }

  /** A class found in a string is still found once text is appended. */
  lemma HasAppend(a: string, b: string, inClass: char -> bool)
    requires Has(a, inClass)
    ensures Has(a + b, inClass)
  {
    var i :| 0 <= i < |a| && inClass(a[i]);
    assert (a + b)[i] == a[i];
  }

  /** Before a line break, appending text reaches the same first line plus more. */
  lemma {:induction false} FirstLineAppend(p: string, q: string)
    requires forall i :: 0 <= i < |p| ==> !IsLineTerminator(p[i])
    ensures FirstLine(p + q) == p + FirstLine(q)
  {
    if |p| == 0 {
      assert p + q == q;
    } else {
      assert (p + q)[0] == p[0] && !IsLineTerminator(p[0]);
      assert (p + q)[1..] == p[1..] + q;
      assert forall i :: 0 <= i < |p| - 1 ==> p[1..][i] == p[i + 1];
      FirstLineAppend(p[1..], q);
      assert FirstLine(p + q) == [p[0]] + FirstLine(p[1..] + q);
      assert [p[0]] + (p[1..] + FirstLine(q)) == p + FirstLine(q);
    }
  }

  /** A password without line breaks is examined whole. */
  lemma FirstLineWhole(p: string)
    requires forall i :: 0 <= i < |p| ==> !IsLineTerminator(p[i])
    ensures FirstLine(p) == p
  {
    FirstLineAppend(p, "");
    assert p + "" == p;
  }

  /** Typing more characters onto a password without line breaks never lowers its strength. */
  lemma TypingNeverWeakens(p: string, q: string)
    requires forall i :: 0 <= i < |p| ==> !IsLineTerminator(p[i])
    ensures Rank(Classify(p)) <= Rank(Classify(p + q))
  {
    FirstLineAppend(p, q);
    assert FirstLine(p) == p;
    var l := FirstLine(p + q);
    assert l == p + FirstLine(q);
    if StrongTest(p) {
      HasAppend(p, FirstLine(q), IsLowerAscii);
      HasAppend(p, FirstLine(q), IsUpperAscii);
      HasAppend(p, FirstLine(q), IsDigit);
      HasAppend(p, FirstLine(q), IsSpecial);
    } else if MediumTest(p) {
      HasAppend(p, FirstLine(q), IsLetter);
      HasAppend(p, FirstLine(q), IsDigit);
      StrongPassesMedium(p + q);
    }
  }

  /** A password with every required class and eight characters is strong. */
  lemma StrongExample()
    ensures Classify("Passw0rd!") == Strong
  {
    var s := "Passw0rd!";
    StrongExampleLine();
    assert Has(s, IsUpperAscii) by { assert IsUpperAscii(s[0]); }
    assert Has(s, IsLowerAscii) by { assert IsLowerAscii(s[1]); }
    assert Has(s, IsDigit) by { assert IsDigit(s[5]); }
    assert Has(s, IsSpecial) by { assert IsSpecial(s[8]); }
  }

  /** The strong example has no line break. */
  lemma StrongExampleLine()
    ensures FirstLine("Passw0rd!") == "Passw0rd!"
  {
    FirstLineWhole("Passw0rd!");
  }

  /** Six characters with a letter and a digit are medium. */
  lemma MediumExample()
    ensures Classify("abc123") == Medium
  {
    var m := "abc123";
    FirstLineWhole(m);
    assert IsLetter(m[0]) && IsDigit(m[3]);
  }

  /** Eight letters without a digit are weak. */
  lemma WeakExample()
    ensures Classify("abcdefgh") == Weak
  {
    var w := "abcdefgh";
    assert forall i :: 0 <= i < |w| ==> 'a' <= w[i] <= 'h';
    FirstLineWhole(w);
    assert !Has(w, IsDigit);
    WeakIff(w);
  }

  /** A line break hides the rest of the password: only `Ab1!` is examined. */
  lemma LineBreakExample()
    ensures Classify("Ab1!\nxyzw") == Weak
  {
    FirstLineAppend("Ab1!", "\nxyzw");
    assert "Ab1!" + "\nxyzw" == "Ab1!\nxyzw";
    assert FirstLine("\nxyzw") == "";
    assert FirstLine("Ab1!\nxyzw") == "Ab1!";
    WeakIff("Ab1!\nxyzw");
  }
}
