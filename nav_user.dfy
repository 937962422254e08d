/** Avatar initials of the user menu
    (src/layouts/AppLayout/components/NavUser.tsx). */
module NavUser {
  import opened Text

  /** `words.map(n => n[0]).join('')`: an empty word's `n[0]` is `undefined`,
      which joins as nothing. */
  function FirstChars(words: seq<string>): (r: string)
    ensures |r| == |NonEmpty(words)|
    ensures forall i :: 0 <= i < |r| ==> r[i] == NonEmpty(words)[i][0]
  {
    if |words| == 0 then ""
    else (if words[0] == "" then "" else [words[0][0]]) + FirstChars(words[1..])
  }

  lemma {:induction false} FirstCharsConcat(a: seq<string>, b: seq<string>)
    ensures FirstChars(a + b) == FirstChars(a) + FirstChars(b)
  {
    if |a| > 0 {
      FirstCharsConcat(a[1..], b);
      assert (a + b)[0] == a[0];
      assert (a + b)[1..] == a[1..] + b;
    } else {
      assert a + b == b;
    }
  }

  /** `getInitials(name)`: the upper-cased first letters of the first two
      non-empty space-separated words. */
  function Initials(name: string): (r: string)
    ensures |r| <= 2
    ensures forall i :: 0 <= i < |r| ==> !IsLowerAscii(r[i])
    ensures |r| == if |NonEmpty(Split(name, ' '))| < 2 then |NonEmpty(Split(name, ' '))| else 2
    ensures forall i :: 0 <= i < |r| ==> r[i] == UpperChar(NonEmpty(Split(name, ' '))[i][0])
  {
    Take(Upper(FirstChars(Split(name, ' '))), 2)
  }

  lemma EmptyNameNoInitials()
    ensures Initials("") == ""
  {
    assert Split("", ' ') == [""];
  }

  /** A space between two parts splits them independently. */
  lemma InitialsAround(a: string, b: string)
    ensures FirstChars(Split(a + " " + b, ' ')) == FirstChars(Split(a, ' ')) + FirstChars(Split(b, ' '))
  {
    SplitAround(a, b, ' ');
    FirstCharsConcat(Split(a, ' '), Split(b, ' '));
  }

  /** Extra and leading spaces contribute nothing. */
  lemma SpacesIrrelevant(a: string, b: string)
    ensures Initials(a + "  " + b) == Initials(a + " " + b)
    ensures Initials(" " + b) == Initials(b)
  {
    InitialsAround("", b);
    assert "" + " " + b == " " + b;
    assert Split("", ' ') == [""];
    assert FirstChars(Split(" " + b, ' ')) == FirstChars(Split(b, ' '));
    InitialsAround(a, " " + b);
    assert a + "  " + b == a + " " + (" " + b);
    InitialsAround(a, b);
  }

  /** Two words give the upper-cased first letters of both, in order. */
  lemma TwoWords(first: string, last: string)
    requires first != "" && last != "" && ' ' !in first && ' ' !in last
    ensures Initials(first + " " + last) == [UpperChar(first[0]), UpperChar(last[0])]
  {
    InitialsAround(first, last);
    SplitJoin([first], ' ');
    SplitJoin([last], ' ');
    assert FirstChars([first]) == [first[0]] + FirstChars([]);
    assert FirstChars([last]) == [last[0]] + FirstChars([]);
  }
}
