// The string logic of the project-renaming script (rename-project.js):
// kebabCase, titleCase, the project-name check and the answers-to-outcome
// rule of `main`. Reading the answers from the terminal, and rewriting
// files on disk, are not modelled: the answers are parameters and the
// outcome says what the script would go on to write.
module RenameProject {
  import opened Text

  const DefaultName := "saas-react-starter"
  const DefaultTitle := "SaaS React Starter"

  // ---------------------------------------------------------------------
  // kebabCase
  // ---------------------------------------------------------------------

  /** The characters of the class `[\s_]`. */
  predicate IsSeparator(c: char)
  {
    IsJsSpace(c) || c == '_'
  }

  /** A lower-case letter directly followed by an upper-case one. */
  predicate CamelBoundary(s: string, i: int)
    requires 0 <= i < |s| - 1
  {
    IsLowerAscii(s[i]) && IsUpperAscii(s[i + 1])
  }

  /** The string with every '-' removed. */
  function WithoutHyphens(s: string): (r: string)
    ensures '-' !in r
  {
    if |s| == 0 then ""
    else (if s[0] == '-' then "" else [s[0]]) + WithoutHyphens(s[1..])
  }

  /** `.replace(/([a-z])([A-Z])/g, '$1-$2')`. A match ends on its upper-case
    * letter, which cannot start the next match, so every boundary is split. */
  function SplitCamel(s: string): (r: string)
    ensures |s| > 0 ==> |r| > 0 && r[0] == s[0]
    ensures forall i :: 0 <= i < |r| - 1 ==> !CamelBoundary(r, i)
    ensures WithoutHyphens(r) == WithoutHyphens(s)
  {
    if |s| < 2 then s
    else
      var rest := SplitCamel(s[1..]);
      if IsLowerAscii(s[0]) && IsUpperAscii(s[1]) then
        var r := [s[0], '-'] + rest;
        assert r[1..] == ['-'] + rest;
        assert (['-'] + rest)[1..] == rest;
        assert forall i :: 2 <= i < |r| - 1 ==> CamelBoundary(r, i) == CamelBoundary(rest, i - 2);
        r
      else
        var r := [s[0]] + rest;
        assert r[1..] == rest;
        assert !CamelBoundary(r, 0);
        assert forall i :: 1 <= i < |r| - 1 ==> CamelBoundary(r, i) == CamelBoundary(rest, i - 1);
        r
  }

  /** What is left after a leading run of separators. */
  function DropSeparators(s: string): (r: string)
    ensures |r| <= |s| && r == s[|s| - |r|..]
    ensures |r| > 0 ==> !IsSeparator(r[0])
    ensures forall i :: 0 <= i < |s| - |r| ==> IsSeparator(s[i])
  {
    if |s| > 0 && IsSeparator(s[0]) then
      var r := DropSeparators(s[1..]);
      assert s[1..][|s| - 1 - |r|..] == s[|s| - |r|..];
      assert forall i :: 1 <= i < |s| - |r| ==> s[i] == s[1..][i - 1];
      r
    else s
  }

  /** `.replace(/[\s_]+/g, '-')`: every maximal run of separators becomes a
    * single '-'. */
  function CollapseSeparators(s: string): (r: string)
    ensures forall i :: 0 <= i < |r| ==> !IsSeparator(r[i])
    decreases |s|
  {
    if |s| == 0 then ""
    else if IsSeparator(s[0]) then "-" + CollapseSeparators(DropSeparators(s[1..]))
    else [s[0]] + CollapseSeparators(s[1..])
  }

  /** kebabCase. */
  function KebabCase(s: string): (r: string)
    ensures forall i :: 0 <= i < |r| ==> !IsUpperAscii(r[i]) && !IsSeparator(r[i])
  {
    Lower(CollapseSeparators(SplitCamel(s)))
  }

  /** Without camel boundaries there is nothing to split. */
  lemma {:induction false} SplitCamelIdentity(s: string)
    requires forall i :: 0 <= i < |s| - 1 ==> !CamelBoundary(s, i)
    ensures SplitCamel(s) == s
  {
    if |s| >= 2 {
      assert !CamelBoundary(s, 0);
      forall i | 0 <= i < |s[1..]| - 1 ensures !CamelBoundary(s[1..], i) {
        assert !CamelBoundary(s, i + 1);
      }
      SplitCamelIdentity(s[1..]);
    }
  }

  /** A run of separators between two separator-free stretches becomes one
    * '-'. */
  lemma {:induction false} CollapseRun(x: string, run: string, y: string)
    requires forall i :: 0 <= i < |x| ==> !IsSeparator(x[i])
    requires |run| > 0 && forall i :: 0 <= i < |run| ==> IsSeparator(run[i])
    requires |y| == 0 || !IsSeparator(y[0])
    ensures CollapseSeparators(x + run + y) == x + "-" + CollapseSeparators(y)
  {
    if |x| == 0 {
      assert x + run + y == run + y;
      DropRun(run[1..], y);
      assert (run + y)[1..] == run[1..] + y;
    } else {
      CollapseRun(x[1..], run, y);
      assert (x + run + y)[1..] == x[1..] + run + y;
      assert x == [x[0]] + x[1..];
    }
  }

  lemma {:induction false} DropRun(run: string, y: string)
    requires forall i :: 0 <= i < |run| ==> IsSeparator(run[i])
    requires |y| == 0 || !IsSeparator(y[0])
    ensures DropSeparators(run + y) == y
  {
    if |run| > 0 {
      DropRun(run[1..], y);
      assert (run + y)[1..] == run[1..] + y;
    } else {
      assert run + y == y;
    }
  }

  /** A string with no separators is left alone. */
  lemma {:induction false} CollapseIdentity(x: string)
    requires forall i :: 0 <= i < |x| ==> !IsSeparator(x[i])
    ensures CollapseSeparators(x) == x
  {
    if |x| > 0 {
      CollapseIdentity(x[1..]);
    }
  }

  // ---------------------------------------------------------------------
  // titleCase
  // ---------------------------------------------------------------------

  /** `word.charAt(0).toUpperCase() + word.slice(1)`. */
  function Capitalize(word: string): (r: string)
    ensures |r| == |word|
    ensures |word| > 0 ==> r[0] == UpperChar(word[0]) && r[1..] == word[1..]
  {
    if |word| == 0 then "" else [UpperChar(word[0])] + word[1..]
  }

  function CapitalizeAll(words: seq<string>): (r: seq<string>)
    ensures |r| == |words|
    ensures forall i :: 0 <= i < |words| ==> r[i] == Capitalize(words[i])
  {
    if |words| == 0 then [] else [Capitalize(words[0])] + CapitalizeAll(words[1..])
  }

  /** Joining pieces of the same lengths, with any one-character separator,
      gives strings of the same length. */
  lemma {:induction false} JoinKeepsLength(a: seq<string>, b: seq<string>, sa: char, sb: char)
    requires |a| == |b| && forall i :: 0 <= i < |a| ==> |a[i]| == |b[i]|
    ensures |Join(a, sa)| == |Join(b, sb)|
  {
    if |a| > 1 {
      JoinKeepsLength(a[1..], b[1..], sa, sb);
    }
  }

  /** titleCase: each hyphen becomes a space, so the length is kept. */
  function TitleCase(s: string): (r: string)
    ensures |r| == |s|
  {
    var parts := Split(s, '-');
    JoinKeepsLength(CapitalizeAll(parts), parts, ' ', '-');
    JoinSplit(s, '-');
    Join(CapitalizeAll(parts), ' ')
  }

  // ---------------------------------------------------------------------
  // The project name
  // ---------------------------------------------------------------------

  /** `/^[a-z][a-z0-9-]*$/.test(name)`. */
  function IsValidProjectName(name: string): (r: bool)
    ensures r ==> Lower(name) == name
  {
    |name| > 0 && IsLowerAscii(name[0]) &&
    forall i :: 1 <= i < |name| ==> IsLowerAscii(name[i]) || IsDigit(name[i]) || name[i] == '-'
  }

  /** A name holds two hyphens in a row. */
  predicate HasDoubleHyphen(s: string)
  {
    exists i :: 0 <= i < |s| - 1 && s[i] == '-' && s[i + 1] == '-'
  }

  // ---------------------------------------------------------------------
  // What titleCase and kebabCase do to an accepted name
  // ---------------------------------------------------------------------

  lemma {:induction false} InJoin(parts: seq<string>, sep: char)
    ensures forall i, c :: 0 <= i < |parts| && c in parts[i] ==> c in Join(parts, sep)
  {
    if |parts| >= 2 {
      InJoin(parts[1..], sep);
      forall i, c | 0 <= i < |parts| && c in parts[i] ensures c in Join(parts, sep) {
        if i > 0 {
          assert parts[1..][i - 1] == parts[i];
        }
      }
    }
  }

  lemma {:induction false} JoinAvoids(parts: seq<string>, sep: char, c: char)
    requires c != sep && forall i :: 0 <= i < |parts| ==> c !in parts[i]
    ensures c !in Join(parts, sep)
  {
    if |parts| >= 2 {
      JoinAvoids(parts[1..], sep, c);
    }
  }

  /** Every character of a piece of `s.split(sep)` comes from `s`. */
  lemma SplitPiecesFromSource(s: string, sep: char)
    ensures forall i, c :: 0 <= i < |Split(s, sep)| && c in Split(s, sep)[i] ==> c in s
  {
    JoinSplit(s, sep);
    InJoin(Split(s, sep), sep);
  }

  /** Without two separators in a row, only the first and last pieces of a
    * split can be empty. */
  lemma {:induction false} SplitInteriorNonEmpty(s: string, sep: char)
    requires forall i :: 0 <= i < |s| - 1 ==> !(s[i] == sep && s[i + 1] == sep)
    ensures forall i :: 0 < i < |Split(s, sep)| - 1 ==> Split(s, sep)[i] != ""
  {
    if |s| > 0 {
      var t := s[1..];
      var rest := Split(t, sep);
      SplitInteriorNonEmpty(t, sep);
      var parts := Split(s, sep);
      if s[0] == sep {
        assert parts == [""] + rest;
        if |rest| >= 2 {
          assert |t| > 0;
          assert t[0] != sep by {
            assert s[1] == t[0];
            assert !(s[0] == sep && s[1] == sep);
          }
          assert rest[0] == [t[0]] + Split(t[1..], sep)[0];
        }
        forall i | 1 < i < |parts| - 1 ensures parts[i] != "" {
          assert parts[i] == rest[i - 1];
        }
      } else {
        assert parts == [[s[0]] + rest[0]] + rest[1..];
        forall i | 0 < i < |parts| - 1 ensures parts[i] != "" {
          assert parts[i] == rest[i];
        }
      }
    }
  }

  /** The upper-case letters of `s`, if any, are at its start. */
  predicate UpperOnlyFirst(s: string)
  {
    forall j :: 1 <= j < |s| ==> !IsUpperAscii(s[j])
  }

  lemma {:induction false} JoinWithoutBoundary(parts: seq<string>)
    requires forall i :: 0 <= i < |parts| ==> UpperOnlyFirst(parts[i])
    ensures forall i :: 0 <= i < |Join(parts, ' ')| - 1 ==> !CamelBoundary(Join(parts, ' '), i)
  {
    if |parts| >= 2 {
      var p := parts[0];
      var rest := Join(parts[1..], ' ');
      JoinWithoutBoundary(parts[1..]);
      var t := Join(parts, ' ');
      assert t == p + [' '] + rest;
      assert UpperOnlyFirst(p);
      forall i | 0 <= i < |t| - 1 ensures !CamelBoundary(t, i) {
        if i < |p| - 1 {
          assert t[i + 1] == p[i + 1];
        } else if i == |p| - 1 {
          assert t[i + 1] == ' ';
        } else if i == |p| {
          assert t[i] == ' ';
        } else {
          assert t[i] == rest[i - |p| - 1] && t[i + 1] == rest[i - |p|];
          assert !CamelBoundary(rest, i - |p| - 1);
        }
      }
    }
  }

  /** Joining separator-free pieces with single spaces and collapsing the
    * spaces gives them joined with hyphens, as long as no interior piece is
    * empty. */
  lemma {:induction false} CollapseJoin(parts: seq<string>)
    requires forall i, j :: 0 <= i < |parts| && 0 <= j < |parts[i]| ==> !IsSeparator(parts[i][j])
    requires forall i :: 0 < i < |parts| - 1 ==> parts[i] != ""
    ensures CollapseSeparators(Join(parts, ' ')) == Join(parts, '-')
  {
    if |parts| == 1 {
      CollapseIdentity(parts[0]);
    } else if |parts| >= 2 {
      var tail := parts[1..];
      CollapseJoin(tail);
      var y := Join(tail, ' ');
      assert |y| == 0 || !IsSeparator(y[0]) by {
        if |tail| >= 2 {
          assert tail[0] != "";
          assert y == tail[0] + [' '] + Join(tail[1..], ' ');
          assert y[0] == tail[0][0];
        } else {
          assert y == tail[0];
          if |y| > 0 {
            assert y[0] == parts[1][0];
          }
        }
      }
      assert forall j :: 0 <= j < |parts[0]| ==> !IsSeparator(parts[0][j]);
      CollapseRun(parts[0], " ", y);
    }
  }

  lemma LowerConcat(a: string, b: string)
    ensures Lower(a + b) == Lower(a) + Lower(b)
  {
    assert forall i :: 0 <= i < |a + b| ==> Lower(a + b)[i] == (Lower(a) + Lower(b))[i];
  }

  lemma {:induction false} LowerJoin(caps: seq<string>, parts: seq<string>)
    requires |caps| == |parts|
    requires forall i :: 0 <= i < |caps| ==> Lower(caps[i]) == parts[i]
    ensures Lower(Join(caps, '-')) == Join(parts, '-')
  {
    if |caps| == 1 {
    } else if |caps| >= 2 {
      LowerJoin(caps[1..], parts[1..]);
      LowerConcat(caps[0] + ['-'], Join(caps[1..], '-'));
      LowerConcat(caps[0], ['-']);
    }
  }

  /** Lower-casing a capitalised word without other capitals restores it. */
  lemma LowerCapitalize(w: string)
    requires forall j :: 0 <= j < |w| ==> !IsUpperAscii(w[j])
    ensures Lower(Capitalize(w)) == w
  {
    var r := Capitalize(w);
    forall j | 0 <= j < |w| ensures Lower(r)[j] == w[j] {
      if j > 0 {
        assert r[j] == r[1..][j - 1] == w[j];
      }
    }
  }

  /** The characters of an accepted name are letters, digits and hyphens. */
  predicate NameChar(c: char)
  {
    IsLowerAscii(c) || IsDigit(c) || c == '-'
  }

  /** For an accepted name, titleCase holds no '-', and splitting it on spaces
    * gives back one capitalised word per hyphen-separated piece of the name. */
  lemma TitleCaseWords(name: string)
    requires IsValidProjectName(name)
    ensures '-' !in TitleCase(name)
    ensures Split(TitleCase(name), ' ') == CapitalizeAll(Split(name, '-'))
    ensures |Split(TitleCase(name), ' ')| == |Split(name, '-')|
  {
    var parts := Split(name, '-');
    var caps := CapitalizeAll(parts);
    SplitPiecesFromSource(name, '-');
    assert forall c :: c in name ==> NameChar(c);
    forall i | 0 <= i < |caps| ensures ' ' !in caps[i] && '-' !in caps[i] {
      forall j | 0 <= j < |caps[i]| ensures caps[i][j] != ' ' && caps[i][j] != '-' {
        if j == 0 {
          assert parts[i][0] in parts[i];
          assert parts[i][0] in name;
        } else {
          assert caps[i][j] == caps[i][1..][j - 1] == parts[i][j];
          assert parts[i][j] in parts[i];
          assert parts[i][j] in name;
        }
      }
    }
    JoinAvoids(caps, ' ', '-');
    SplitJoin(caps, ' ');
  }

  /** For an accepted name without two hyphens in a row, kebabCase undoes
    * titleCase. */
  lemma KebabUndoesTitle(name: string)
    requires IsValidProjectName(name) && !HasDoubleHyphen(name)
    ensures KebabCase(TitleCase(name)) == name
  {
    var parts := Split(name, '-');
    var caps := CapitalizeAll(parts);
    var t := Join(caps, ' ');
    SplitPiecesFromSource(name, '-');
    assert forall c :: c in name ==> NameChar(c);
    assert forall i, j :: 0 <= i < |parts| && 0 <= j < |parts[i]| ==> NameChar(parts[i][j]) by {
      forall i, j | 0 <= i < |parts| && 0 <= j < |parts[i]| ensures NameChar(parts[i][j]) {
        assert parts[i][j] in parts[i];
      }
    }
    forall i | 0 <= i < |caps|
      ensures UpperOnlyFirst(caps[i])
      ensures forall j :: 0 <= j < |caps[i]| ==> !IsSeparator(caps[i][j])
      ensures Lower(caps[i]) == parts[i]
    {
      forall j | 0 <= j < |caps[i]| ensures !IsSeparator(caps[i][j]) && (j >= 1 ==> !IsUpperAscii(caps[i][j])) {
        if j > 0 {
          assert caps[i][j] == caps[i][1..][j - 1] == parts[i][j];
        }
      }
      LowerCapitalize(parts[i]);
    }
    JoinWithoutBoundary(caps);
    SplitCamelIdentity(t);
    SplitInteriorNonEmpty(name, '-');
    CollapseJoin(caps);
    LowerJoin(caps, parts);
    JoinSplit(name, '-');
  }

  // ---------------------------------------------------------------------
  // main
  // ---------------------------------------------------------------------

  /** What `main` goes on to do with the three answers. */
  datatype Outcome =
    | NameRequired
    | InvalidName
    | Cancelled
    | Renamed(name: string, title: string, description: string)

  /** The three answers of `main`; `askQuestion` trims each of them. An empty
    * title answer falls back to `titleCase(name)`. */
  function RenameOutcome(nameAnswer: string, titleAnswer: string, confirmAnswer: string): (o: Outcome)
    ensures o == NameRequired <==> Trim(nameAnswer) == ""
    ensures o == InvalidName <==> Trim(nameAnswer) != "" && !IsValidProjectName(Trim(nameAnswer))
    ensures o == Cancelled <==>
      IsValidProjectName(Trim(nameAnswer)) && Lower(Trim(confirmAnswer)) != "y"
    ensures o.Renamed? <==>
      IsValidProjectName(Trim(nameAnswer)) && Lower(Trim(confirmAnswer)) == "y"
    ensures o.Renamed? ==>
      (o.name == Trim(nameAnswer) && o.description == o.title + " - A modern SaaS application")
    ensures o.Renamed? && Trim(titleAnswer) == "" ==> o.title == TitleCase(o.name)
    ensures o.Renamed? && Trim(titleAnswer) != "" ==> o.title == Trim(titleAnswer)
  {
    var name := Trim(nameAnswer);
    if name == "" then NameRequired
    else if !IsValidProjectName(name) then InvalidName
    else
      var titleInput := Trim(titleAnswer);
      var title := if titleInput != "" then titleInput else TitleCase(name);
      if Lower(Trim(confirmAnswer)) != "y" then Cancelled
      else Renamed(name, title, title + " - A modern SaaS application")
  }

  /** The confirmation accepts "y" in either case, and nothing else. */
  lemma ConfirmationAnswers(answer: string)
    ensures Lower(answer) == "y" <==> answer == "y" || answer == "Y"
  {
    if Lower(answer) == "y" {
      assert |answer| == 1;
      assert LowerChar(answer[0]) == 'y';
      assert answer == [answer[0]];
    }
  }
}
