/** `camel_to_snake`: three regular-expression substitutions applied in turn,
    then lower-casing. Each substitution scans left to right and replaces
    non-overlapping matches, resuming after each match. Characters are taken
    as ASCII: the character classes of the patterns are ASCII ranges, and
    lower-casing maps only 'A'..'Z'. */
module DbTools {
  import opened Python

  /** The length of the run of lower-case letters at the start of `s`. */
  function LowerRun(s: string): (n: nat)
    ensures n <= |s|
    ensures forall i :: 0 <= i < n ==> IsLower(s[i])
    ensures n < |s| ==> !IsLower(s[n])
  {
    if s != [] && IsLower(s[0]) then 1 + LowerRun(s[1..]) else 0
  }

  /** `re.sub("(.)([A-Z][a-z]+)", r"\1_\2", s)`: '.' is any character but a
      newline, and `[a-z]+` takes the whole lower-case run. */
  function SplitBeforeWords(s: string): (r: string)
    ensures |r| >= |s|
  {
    if |s| >= 3 && s[0] != '\n' && IsUpper(s[1]) && IsLower(s[2]) then
      var j := 2 + LowerRun(s[2..]);
      [s[0]] + "_" + s[1..j] + SplitBeforeWords(s[j..])
    else if s == [] then []
    else [s[0]] + SplitBeforeWords(s[1..])
  }

  /** `re.sub("__([A-Z])", r"_\1", s)`: a doubled underscore before a capital
      becomes a single one. */
  function CollapseUnderscores(s: string): (r: string)
    ensures |r| <= |s|
  {
    if |s| >= 3 && s[0] == '_' && s[1] == '_' && IsUpper(s[2]) then
      "_" + [s[2]] + CollapseUnderscores(s[3..])
    else if s == [] then []
    else [s[0]] + CollapseUnderscores(s[1..])
  }

  /** `re.sub("([a-z0-9])([A-Z])", r"\1_\2", s)`. */
  function SplitAfterLowerOrDigit(s: string): (r: string)
    ensures |r| >= |s|
  {
    if |s| >= 2 && (IsLower(s[0]) || IsDigit(s[0])) && IsUpper(s[1]) then
      [s[0]] + "_" + [s[1]] + SplitAfterLowerOrDigit(s[2..])
    else if s == [] then []
    else [s[0]] + SplitAfterLowerOrDigit(s[1..])
  }

  function LowerChar(c: char): char
  {
    if IsUpper(c) then (c as int - 'A' as int + 'a' as int) as char else c
  }

  /** `s.lower()` restricted to ASCII letters. */
  function Lower(s: string): (r: string)
    ensures |r| == |s|
    ensures forall i :: 0 <= i < |r| ==> r[i] == LowerChar(s[i])
  {
    if s == [] then [] else [LowerChar(s[0])] + Lower(s[1..])
  }

  /** The result never contains an ASCII capital. */
  function CamelToSnake(name: string): (r: string)
    ensures NoUpper(r)
  {
    Lower(SplitAfterLowerOrDigit(CollapseUnderscores(SplitBeforeWords(name))))
  }

  predicate NoUpper(s: string)
  {
    forall i :: 0 <= i < |s| ==> !IsUpper(s[i])
  }

  /** `s` with every underscore removed. */
  function DropUnderscores(s: string): string
  {
    if s == [] then [] else (if s[0] == '_' then [] else [s[0]]) + DropUnderscores(s[1..])
  }

  // ---------------------------------------------------------------------------
  // Strings without capitals are fixed points
  // ---------------------------------------------------------------------------

  lemma {:induction false} SplitBeforeWordsNoUpper(s: string)
    requires NoUpper(s)
    ensures SplitBeforeWords(s) == s
  {
    if s != [] {
      SplitBeforeWordsNoUpper(s[1..]);
    }
  }

  lemma {:induction false} CollapseUnderscoresNoUpper(s: string)
    requires NoUpper(s)
    ensures CollapseUnderscores(s) == s
  {
    if s != [] {
      CollapseUnderscoresNoUpper(s[1..]);
    }
  }

  lemma {:induction false} SplitAfterNoUpper(s: string)
    requires NoUpper(s)
    ensures SplitAfterLowerOrDigit(s) == s
  {
    if s != [] {
      SplitAfterNoUpper(s[1..]);
    }
  }

  lemma LowerNoUpper(s: string)
    requires NoUpper(s)
    ensures Lower(s) == s
  {
    assert forall i :: 0 <= i < |s| ==> LowerChar(s[i]) == s[i];
  }

  /** A name without ASCII capitals is returned unchanged. */
  lemma NoUpperUnchanged(name: string)
    requires NoUpper(name)
    ensures CamelToSnake(name) == name
  {
    SplitBeforeWordsNoUpper(name);
    CollapseUnderscoresNoUpper(name);
    SplitAfterNoUpper(name);
    LowerNoUpper(name);
  }

  /** Converting twice is converting once. */
  lemma Idempotent(name: string)
    ensures CamelToSnake(CamelToSnake(name)) == CamelToSnake(name)
  {
    NoUpperUnchanged(CamelToSnake(name));
  }

  // ---------------------------------------------------------------------------
  // Only underscores are inserted or removed
  // ---------------------------------------------------------------------------

  lemma {:induction false} DropUnderscoresAppend(a: string, b: string)
    ensures DropUnderscores(a + b) == DropUnderscores(a) + DropUnderscores(b)
  {
    if a == [] {
      assert a + b == b;
    } else {
      assert (a + b)[1..] == a[1..] + b;
      DropUnderscoresAppend(a[1..], b);
    }
  }

  lemma {:induction false} SplitBeforeWordsKeepsLetters(s: string)
    ensures DropUnderscores(SplitBeforeWords(s)) == DropUnderscores(s)
    decreases |s|
  {
    if |s| >= 3 && s[0] != '\n' && IsUpper(s[1]) && IsLower(s[2]) {
      var j := 2 + LowerRun(s[2..]);
      SplitBeforeWordsKeepsLetters(s[j..]);
      DropUnderscoresAppend([s[0]] + "_" + s[1..j], SplitBeforeWords(s[j..]));
      DropUnderscoresAppend([s[0]] + "_", s[1..j]);
      DropUnderscoresAppend([s[0]], "_");
      assert s == [s[0]] + s[1..j] + s[j..];
      DropUnderscoresAppend([s[0]] + s[1..j], s[j..]);
      DropUnderscoresAppend([s[0]], s[1..j]);
    } else if s != [] {
      SplitBeforeWordsKeepsLetters(s[1..]);
      assert DropUnderscores(s) == DropUnderscores([s[0]]) + DropUnderscores(s[1..]);
      DropUnderscoresAppend([s[0]], SplitBeforeWords(s[1..]));
    }
  }

  lemma {:induction false} CollapseUnderscoresKeepsLetters(s: string)
    ensures DropUnderscores(CollapseUnderscores(s)) == DropUnderscores(s)
    decreases |s|
  {
    if |s| >= 3 && s[0] == '_' && s[1] == '_' && IsUpper(s[2]) {
      CollapseUnderscoresKeepsLetters(s[3..]);
      DropUnderscoresAppend("_" + [s[2]], CollapseUnderscores(s[3..]));
      assert s == "__" + [s[2]] + s[3..];
      DropUnderscoresAppend("__" + [s[2]], s[3..]);
    } else if s != [] {
      CollapseUnderscoresKeepsLetters(s[1..]);
      DropUnderscoresAppend([s[0]], CollapseUnderscores(s[1..]));
    }
  }

  lemma {:induction false} SplitAfterKeepsLetters(s: string)
    ensures DropUnderscores(SplitAfterLowerOrDigit(s)) == DropUnderscores(s)
    decreases |s|
  {
    if |s| >= 2 && (IsLower(s[0]) || IsDigit(s[0])) && IsUpper(s[1]) {
      SplitAfterKeepsLetters(s[2..]);
      var t := [s[0]] + "_" + [s[1]];
      assert DropUnderscores([s[1]]) == [s[1]] by { assert [s[1]][1..] == []; }
      assert DropUnderscores([s[0], s[1]]) == [s[0], s[1]] by { assert [s[0], s[1]][1..] == [s[1]]; }
      assert DropUnderscores(t) == [s[0], s[1]] by {
        assert t[1..] == ['_', s[1]] && t[1..][1..] == [s[1]];
      }
      DropUnderscoresAppend(t, SplitAfterLowerOrDigit(s[2..]));
      assert s == [s[0], s[1]] + s[2..];
      DropUnderscoresAppend([s[0], s[1]], s[2..]);
    } else if s != [] {
      SplitAfterKeepsLetters(s[1..]);
      DropUnderscoresAppend([s[0]], SplitAfterLowerOrDigit(s[1..]));
    }
  }

  lemma {:induction false} LowerDropUnderscores(s: string)
    ensures DropUnderscores(Lower(s)) == Lower(DropUnderscores(s))
  {
    if s != [] {
      LowerDropUnderscores(s[1..]);
      assert Lower(s)[1..] == Lower(s[1..]);
      DropUnderscoresAppend(Lower(s)[..1], Lower(s[1..]));
      assert Lower(s) == Lower(s)[..1] + Lower(s[1..]);
      LowerAppend((if s[0] == '_' then [] else [s[0]]), DropUnderscores(s[1..]));
    }
  }

  lemma LowerAppend(a: string, b: string)
    ensures Lower(a + b) == Lower(a) + Lower(b)
  {
  }

  /** Removing every underscore from the result gives the lower-cased name
      with every underscore removed: the conversion only inserts or deletes
      underscores. */
  lemma OnlyUnderscoresChange(name: string)
    ensures DropUnderscores(CamelToSnake(name)) == DropUnderscores(Lower(name))
  {
    var p1 := SplitBeforeWords(name);
    var p2 := CollapseUnderscores(p1);
    var p3 := SplitAfterLowerOrDigit(p2);
    SplitBeforeWordsKeepsLetters(name);
    CollapseUnderscoresKeepsLetters(p1);
    SplitAfterKeepsLetters(p2);
    LowerDropUnderscores(p3);
    LowerDropUnderscores(name);
  }

  // ---------------------------------------------------------------------------
  // Worked examples
  // ---------------------------------------------------------------------------

  lemma CamelCaseExample(name: string)
    requires name == "CamelCase"
    ensures CamelToSnake(name) == "camel_case"
  {
    CamelCaseFirstPass(name);
    CamelCaseLaterPasses("Camel_Case");
  }

  lemma CamelCaseLaterPasses(p: string)
    requires p == "Camel_Case"
    ensures CollapseUnderscores(p) == p
    ensures SplitAfterLowerOrDigit(p) == p
    ensures Lower(p) == "camel_case"
  {
    assert CollapseUnderscores(p) == p by {
      assert forall i :: 0 <= i < |p| ==> p[i] == '_' ==> i == 5;
      CollapseFixed(p);
    }
    assert SplitAfterLowerOrDigit(p) == p by {
      assert forall i :: 0 < i < |p| ==> IsUpper(p[i]) ==> i == 0 || i == 6;
      SplitAfterFixed(p);
    }
    assert Lower(p) == "camel_case" by {
      assert |Lower(p)| == 10;
      assert forall i :: 0 <= i < 10 ==> Lower(p)[i] == "camel_case"[i];
    }
  }

  lemma CamelCaseFirstPass(n: string)
    requires n == "CamelCase"
    ensures SplitBeforeWords(n) == "Camel_Case"
  {
    var p, rest := "Came", "lCase";
    assert n == p + rest;
    SplitBeforeWordsCopies(p, rest);
    SplitLCase(rest);
    assert p + "l_Case" == "Camel_Case";
  }

  /** A prefix in which no capital follows the first character is copied
      unchanged when the text after it does not start with a capital. */
  lemma {:induction false} SplitBeforeWordsCopies(p: string, s: string)
    requires |s| > 0 && !IsUpper(s[0])
    requires forall i :: 1 <= i < |p| ==> !IsUpper(p[i])
    ensures SplitBeforeWords(p + s) == p + SplitBeforeWords(s)
  {
    if p != [] {
      var t := p[1..] + s;
      assert p + s == [p[0]] + t;
      assert t[0] == if |p| > 1 then p[1] else s[0];
      SplitBeforeWordsCons(p[0], t);
      SplitBeforeWordsCopies(p[1..], s);
      assert p == [p[0]] + p[1..];
    } else {
      assert p + s == s;
    }
  }

  /** A character that does not start a match is copied, and the scan goes on
      with the rest. */
  lemma SplitBeforeWordsCons(c: char, s: string)
    requires c == '\n' || |s| < 2 || !IsUpper(s[0]) || !IsLower(s[1])
    ensures SplitBeforeWords([c] + s) == [c] + SplitBeforeWords(s)
  {
    assert ([c] + s)[1..] == s;
  }

  lemma SplitLCase(s: string)
    requires s == "lCase"
    ensures SplitBeforeWords(s) == "l_Case"
  {
    assert LowerRun("ase") == 3 by {
      assert LowerRun("") == 0;
      assert "ase"[1..] == "se" && "se"[1..] == "e" && "e"[1..] == "";
    }
    assert s[2..] == "ase" && s[1..5] == "Case" && s[5..] == "";
    assert SplitBeforeWords("") == "";
  }

  lemma {:induction false} SplitAfterFixed(s: string)
    requires forall i :: 0 < i < |s| ==> IsUpper(s[i]) ==> !(IsLower(s[i - 1]) || IsDigit(s[i - 1]))
    ensures SplitAfterLowerOrDigit(s) == s
  {
    if s != [] {
      SplitAfterFixed(s[1..]);
    }
  }

  lemma {:induction false} CollapseFixed(s: string)
    requires forall i :: 0 <= i < |s| ==> s[i] != '_' || i + 1 == |s| || s[i + 1] != '_'
    ensures CollapseUnderscores(s) == s
  {
    if s != [] {
      CollapseFixed(s[1..]);
    }
  }

  /** The first substitution turns "a_Bc" into "a__Bc"; the second collapses
      the doubled underscore again. */
  lemma UnderscoreBeforeCapitalExample()
    ensures SplitBeforeWords("a_Bc") == "a__Bc"
    ensures CollapseUnderscores("a__Bc") == "a_Bc"
    ensures CamelToSnake("a_Bc") == "a_bc"
  {
    assert LowerRun("c") == 1 by {
      assert "c"[1..] == "" && LowerRun("") == 0;
    }
    assert "_Bc"[2..] == "c" && "_Bc"[1..3] == "Bc" && "_Bc"[3..] == "";
    assert SplitBeforeWords("_Bc") == "__Bc";
    assert "a_Bc"[1..] == "_Bc";
    assert SplitBeforeWords("a_Bc") == "a__Bc";
    assert "__Bc"[3..] == "c" && "c"[1..] == "";
    assert CollapseUnderscores("c") == "c";
    assert CollapseUnderscores("__Bc") == "_Bc";
    assert "a__Bc"[1..] == "__Bc";
    assert CollapseUnderscores("a__Bc") == "a_Bc";
    SplitAfterFixed("a_Bc");
    assert Lower("a_Bc") == "a_bc";
  }
}
