/**
  The prompt generator's file naming: `toASCII` turns a spoken sentence into
  the base name of its audio file.

  The input is the text after canonical decomposition with the combining
  marks removed; speech synthesis itself is not modelled.
 */
module Generate {
  import opened Wrappers
  import opened GoStrings
  import Modem

  const EmptyNameError: string := "resulting filename is empty after processing"

  predicate IsAsciiUpper(c: char) {
    'A' <= c <= 'Z'
  }

  predicate IsAsciiLower(c: char) {
    'a' <= c <= 'z'
  }

  /** The characters the filter keeps: ASCII letters, digits and white space. */
  predicate Kept(c: char) {
    c as int <= 127 && (IsAsciiUpper(c) || IsAsciiLower(c) || IsDigit(c) || IsSpace(c))
  }

  /** The `strings.Map` step: every character that is not kept is dropped, the rest stay in order. */
  function FilterKept(s: string): (r: string)
    ensures |r| <= |s|
    ensures forall i :: 0 <= i < |r| ==> Kept(r[i])
    decreases |s|
  {
    if s == [] then [] else (if Kept(s[0]) then [s[0]] else []) + FilterKept(s[1..])
  }

  /** A character survives the filter exactly when it occurs in the text and is kept. */
  lemma {:induction false} FilterKeptMembers(s: string, c: char)
    ensures c in FilterKept(s) <==> c in s && Kept(c)
    decreases |s|
  {
    if s != [] {
      FilterKeptMembers(s[1..], c);
      assert c in s <==> c == s[0] || c in s[1..];
    }
  }

  lemma {:induction false} FilterKeptAppend(a: string, b: string)
    ensures FilterKept(a + b) == FilterKept(a) + FilterKept(b)
    decreases |a|
  {
    if a == [] {
      assert a + b == b;
    } else {
      FilterKeptAppend(a[1..], b);
      assert (a + b)[1..] == a[1..] + b;
    }
  }

  lemma {:induction false} FilterKeptAll(s: string)
    requires forall i :: 0 <= i < |s| ==> Kept(s[i])
    ensures FilterKept(s) == s
    decreases |s|
  {
    if s != [] {
      FilterKeptAll(s[1..]);
    }
  }

  lemma {:induction false} FilterKeptNone(s: string)
    requires forall i :: 0 <= i < |s| ==> !Kept(s[i])
    ensures FilterKept(s) == []
    decreases |s|
  {
    if s != [] {
      FilterKeptNone(s[1..]);
    }
  }

  function LowerChar(c: char): (l: char)
    ensures !IsAsciiUpper(l)
    ensures IsAsciiUpper(c) ==> l as int == c as int + 32
    ensures !IsAsciiUpper(c) ==> l == c
  {
    if IsAsciiUpper(c) then (c as int + 32) as char else c
  }

  /** `strings.ToLower` on ASCII text. */
  function Lower(s: string): (r: string)
    ensures |r| == |s| && forall i :: 0 <= i < |s| ==> r[i] == LowerChar(s[i])
  {
    seq(|s|, i requires 0 <= i < |s| => LowerChar(s[i]))
  }

  /** `strings.ReplaceAll(s, " ", "_")`. */
  function Underscored(s: string): (r: string)
    ensures |r| == |s|
    ensures forall i :: 0 <= i < |s| ==> (r[i] == '_' <==> s[i] == ' ' || s[i] == '_')
    ensures forall i :: 0 <= i < |s| && s[i] != ' ' ==> r[i] == s[i]
  {
    seq(|s|, i requires 0 <= i < |s| => if s[i] == ' ' then '_' else s[i])
  }

  /** `toASCII`: filter, lower-case, trim, replace spaces; an empty result is an error. */
  function ToAscii(text: string): Result<string, string> {
    var name := Underscored(TrimSpace(Lower(FilterKept(text))));
    if name == [] then Failure(EmptyNameError) else Success(name)
  }

  /** A character of a generated name: a lower-case letter, a digit, `_`, or white space other than ' '. */
  predicate NameChar(c: char) {
    IsAsciiLower(c) || IsDigit(c) || c == '_' || (IsSpace(c) && c != ' ' && c as int <= 127)
  }

  /** What the trimming step may see: kept characters, none of them upper-case. */
  predicate NameSource(c: char) {
    Kept(c) && !IsAsciiUpper(c)
  }

  lemma LowerFiltered(text: string)
    ensures forall i :: 0 <= i < |Lower(FilterKept(text))| ==> NameSource(Lower(FilterKept(text))[i])
  {
  }

  lemma TrimKeepsSource(s: string)
    requires forall i :: 0 <= i < |s| ==> NameSource(s[i])
    ensures forall i :: 0 <= i < |TrimSpace(s)| ==> NameSource(TrimSpace(s)[i])
  {
    var l := TrimLeftSpace(s);
    var r := TrimRightSpace(l);
    assert TrimSpace(s) == r;
    forall i | 0 <= i < |r|
      ensures NameSource(r[i])
    {
      assert r[i] == l[i] == s[|s| - |l| + i];
    }
  }

  /**
    A well-formed name: non-empty, without ' ' or upper-case letters, and
    neither starting nor ending with white space.
   */
  predicate WellFormedName(name: string) {
    && |name| > 0
    && ' ' !in name
    && (forall i :: 0 <= i < |name| ==> NameChar(name[i]))
    && !IsSpace(name[0]) && !IsSpace(name[|name| - 1])
  }

  lemma UnderscoredName(s: string)
    requires forall i :: 0 <= i < |s| ==> NameSource(s[i])
    requires s != [] && !IsSpace(s[0]) && !IsSpace(s[|s| - 1])
    ensures WellFormedName(Underscored(s))
  {
    var name := Underscored(s);
    forall i | 0 <= i < |name|
      ensures NameChar(name[i]) && name[i] != ' '
    {
    }
  }

  /** Every name `toASCII` produces is well formed. */
  lemma ToAsciiName(text: string)
    ensures ToAscii(text).Success? ==> WellFormedName(ToAscii(text).value)
  {
    var lower := Lower(FilterKept(text));
    LowerFiltered(text);
    TrimKeepsSource(lower);
    if TrimSpace(lower) != [] {
      UnderscoredName(TrimSpace(lower));
    }
  }

  /** The name is empty, and `toASCII` fails, exactly when the text holds no kept character other than white space. */
  lemma ToAsciiEmpty(text: string)
    ensures ToAscii(text).Failure? <==> forall c :: c in text && Kept(c) ==> IsSpace(c)
    ensures ToAscii(text).Failure? ==> ToAscii(text).error == EmptyNameError
  {
    var filtered := FilterKept(text);
    var lower := Lower(filtered);
    if forall c :: c in text && Kept(c) ==> IsSpace(c) {
      forall i | 0 <= i < |lower|
        ensures IsSpace(lower[i])
      {
        FilterKeptMembers(text, filtered[i]);
      }
      AllSpaceTrims(lower);
    } else {
      var c :| c in text && Kept(c) && !IsSpace(c);
      FilterKeptMembers(text, c);
      var i :| 0 <= i < |filtered| && filtered[i] == c;
      SomeNonSpaceStays(lower, i);
    }
  }

  /** Trimming a string of white space leaves nothing. */
  lemma AllSpaceTrims(s: string)
    requires forall i :: 0 <= i < |s| ==> IsSpace(s[i])
    ensures TrimSpace(s) == []
  {
  }

  /** Trimming keeps a string that holds a non-space character non-empty. */
  lemma SomeNonSpaceStays(s: string, i: nat)
    requires i < |s| && !IsSpace(s[i])
    ensures TrimSpace(s) != []
  {
  }

  /** `toASCII` of a text whose filtered, lower-cased form has no white space at either end. */
  lemma ToAsciiOf(text: string, filtered: string, lower: string)
    requires FilterKept(text) == filtered && Lower(filtered) == lower
    requires lower != [] && !IsSpace(lower[0]) && !IsSpace(lower[|lower| - 1])
    ensures ToAscii(text) == Success(Underscored(lower))
  {
  }

  lemma LowerAppend(a: string, b: string)
    ensures Lower(a + b) == Lower(a) + Lower(b)
  {
  }

  lemma UnderscoredAppend(a: string, b: string)
    ensures Underscored(a + b) == Underscored(a) + Underscored(b)
  {
  }

  /** Kept text followed by characters the filter drops passes as the kept text alone. */
  lemma DroppedTail(w: string, tail: string)
    requires forall i :: 0 <= i < |w| ==> Kept(w[i])
    requires forall i :: 0 <= i < |tail| ==> !Kept(tail[i])
    ensures FilterKept(w + tail) == w
  {
    FilterKeptAll(w);
    FilterKeptNone(tail);
    FilterKeptAppend(w, tail);
  }

  lemma PunctuationDropped()
    ensures !Kept('.') && !Kept(',')
  {
  }

  lemma CorrectSentenceKept(w: string)
    requires w == "Mot de passe correct"
    ensures forall i :: 0 <= i < |w| ==> Kept(w[i])
    ensures !IsSpace(w[0]) && !IsSpace(w[|w| - 1])
  {
  }

  lemma CorrectSentenceLowered(w: string, lower: string)
    requires w == "Mot de passe correct" && lower == Lower(w)
    ensures lower == "mot de passe correct" && Underscored(lower) == Modem.CorrectName
  {
  }

  /** "Mot de passe correct." names the confirmation prompt the modem queues. */
  lemma CorrectPromptName(w: string, stop: string)
    requires w == "Mot de passe correct" && stop == "."
    ensures ToAscii(w + stop) == Success(Modem.CorrectName)
  {
    CorrectSentenceKept(w);
    PunctuationDropped();
    DroppedTail(w, stop);
    var lower := Lower(w);
    CorrectSentenceLowered(w, lower);
    ToAsciiOf(w + stop, w, lower);
  }

  lemma WelcomeSentenceKept(a: string, b1: string, b2: string)
    requires a == "Bonjour" && b1 == " veuillez entrez" && b2 == " votre mot de passe"
    ensures forall i :: 0 <= i < |a| ==> Kept(a[i])
    ensures forall i :: 0 <= i < |b1| ==> Kept(b1[i])
    ensures forall i :: 0 <= i < |b2| ==> Kept(b2[i])
    ensures !IsSpace(a[0]) && !IsSpace(b2[|b2| - 1])
  {
  }

  /** Text without upper-case letters is its own lower-case form. */
  lemma LowerNoUpper(s: string)
    requires forall i :: 0 <= i < |s| ==> !IsAsciiUpper(s[i])
    ensures Lower(s) == s
  {
  }

  lemma WelcomeSentenceLowered(a: string, b1: string, b2: string)
    requires a == "Bonjour" && b1 == " veuillez entrez" && b2 == " votre mot de passe"
    ensures Lower(a) == "bonjour" && Lower(b1) == b1 && Lower(b2) == b2
  {
    assert forall i :: 0 <= i < |b1| ==> !IsAsciiUpper(b1[i]);
    LowerNoUpper(b1);
    assert forall i :: 0 <= i < |b2| ==> !IsAsciiUpper(b2[i]);
    LowerNoUpper(b2);
  }

  lemma WelcomeSentenceUnderscored(la: string, b1: string, b2: string, n1: string, n2: string, n3: string)
    requires la == "bonjour" && b1 == " veuillez entrez" && b2 == " votre mot de passe"
    requires n1 == "bonjour" && n2 == "_veuillez_entrez" && n3 == "_votre_mot_de_passe"
    ensures Underscored(la) == n1 && Underscored(b1) == n2 && Underscored(b2) == n3
  {
  }

  lemma KeptConcat(x: string, y: string)
    requires forall i :: 0 <= i < |x| ==> Kept(x[i])
    requires forall i :: 0 <= i < |y| ==> Kept(y[i])
    ensures forall i :: 0 <= i < |x + y| ==> Kept((x + y)[i])
  {
  }

  /**
    Two runs of kept text, each followed by characters the filter drops,
    name a file after the two runs lower-cased and joined.
   */
  lemma TwoRunName(a: string, gap: string, b: string, stop: string)
    requires forall i :: 0 <= i < |a| ==> Kept(a[i])
    requires forall i :: 0 <= i < |b| ==> Kept(b[i])
    requires forall i :: 0 <= i < |gap| ==> !Kept(gap[i])
    requires forall i :: 0 <= i < |stop| ==> !Kept(stop[i])
    requires a != [] && b != [] && !IsSpace(a[0]) && !IsSpace(b[|b| - 1])
    ensures ToAscii(a + gap + b + stop) == Success(Underscored(Lower(a)) + Underscored(Lower(b)))
  {
    DroppedTail(a, gap);
    DroppedTail(b, stop);
    FilterKeptAppend(a + gap, b + stop);
    assert a + gap + b + stop == (a + gap) + (b + stop);
    var lower := Lower(a + b);
    LowerAppend(a, b);
    assert lower[0] == LowerChar(a[0]);
    assert lower[|lower| - 1] == LowerChar(b[|b| - 1]);
    ToAsciiOf(a + gap + b + stop, a + b, lower);
    UnderscoredAppend(Lower(a), Lower(b));
  }

  /** The three runs of the greeting, lower-cased, underscored and joined, give the greeting's base name. */
  lemma WelcomeRunsName(a: string, b1: string, b2: string)
    requires a == "Bonjour" && b1 == " veuillez entrez" && b2 == " votre mot de passe"
    ensures Underscored(Lower(a)) + Underscored(Lower(b1 + b2)) == Modem.WelcomeName
  {
    WelcomeSentenceLowered(a, b1, b2);
    LowerAppend(b1, b2);
    UnderscoredAppend(b1, b2);
    var n1, n2, n3 := "bonjour", "_veuillez_entrez", "_votre_mot_de_passe";
    WelcomeSentenceUnderscored(Lower(a), b1, b2, n1, n2, n3);
    assert n1 + (n2 + n3) == n1 + n2 + n3;
  }

  /**
    "Bonjour, veuillez entrez votre mot de passe." names the greeting the
    modem plays on every call; the comma and the full stop are dropped.
   */
  lemma WelcomePromptName(a: string, comma: string, b1: string, b2: string, stop: string)
    requires a == "Bonjour" && comma == "," && b1 == " veuillez entrez" && b2 == " votre mot de passe" && stop == "."
    ensures ToAscii(a + comma + (b1 + b2) + stop) == Success(Modem.WelcomeName)
  {
    WelcomeSentenceKept(a, b1, b2);
    KeptConcat(b1, b2);
    PunctuationDropped();
    TwoRunName(a, comma, b1 + b2, stop);
    WelcomeRunsName(a, b1, b2);
  }

  /** Each digit names itself, the read-back prompt the modem queues for it. */
  lemma DigitPromptName(d: nat)
    requires d < 10
    ensures ToAscii([DigitChar(d)]) == Success([DigitChar(d)])
    ensures Modem.PromptPath([DigitChar(d)]) == Modem.PromptPath(ToAscii([DigitChar(d)]).value)
  {
    var s := [DigitChar(d)];
    FilterKeptAll(s);
    ToAsciiOf(s, s, s);
    assert Underscored(s) == s;
  }
}
