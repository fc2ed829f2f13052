/** `escape_chars` (cascade/utils.py): the regular-expression rewrite that turns
    every backslash immediately followed by `n` into a newline character. The
    regex engine scans left to right and never reuses a matched character; the
    recursion below does the same. */
module Utils {

  /** True when `s` holds a backslash immediately followed by `n` at `i`. */
  predicate EscapeAt(s: string, i: int)
  {
    0 <= i && i + 1 < |s| && s[i] == '\\' && s[i + 1] == 'n'
  }

  predicate HasEscape(s: string)
  {
    exists i | 0 <= i < |s| :: EscapeAt(s, i)
  }

  /** The number of newline characters in `s`. */
  function Newlines(s: string): nat
  {
    if s == [] then 0 else (if s[0] == '\n' then 1 else 0) + Newlines(s[1..])
  }

  function EscapeChars(text: string): (r: string)
    ensures |r| <= |text|
  {
    if |text| == 0 then ""
    else if EscapeAt(text, 0) then "\n" + EscapeChars(text[2..])
    else [text[0]] + EscapeChars(text[1..])
  }

  /** The first output character: a newline for a leading match, otherwise the
      input's first character. */
  lemma {:induction false} EscapeCharsHead(text: string)
    requires |text| > 0
    ensures |EscapeChars(text)| > 0
    ensures EscapeChars(text)[0] == if EscapeAt(text, 0) then '\n' else text[0]
  {
  }

  /** The output never holds a backslash followed by `n`: every such pair of the
      input was consumed, and no new one is formed across a replacement. */
  lemma {:induction false} EscapeCharsLeavesNoEscape(text: string)
    ensures !HasEscape(EscapeChars(text))
    decreases |text|
  {
    var r := EscapeChars(text);
    if |text| == 0 {
    } else if EscapeAt(text, 0) {
      EscapeCharsLeavesNoEscape(text[2..]);
      var rest := EscapeChars(text[2..]);
      assert r == "\n" + rest;
      forall i | 0 <= i ensures !EscapeAt(r, i) {
        if i > 0 {
          assert !EscapeAt(rest, i - 1);
        }
      }
    } else {
      EscapeCharsLeavesNoEscape(text[1..]);
      var rest := EscapeChars(text[1..]);
      assert r == [text[0]] + rest;
      forall i | 0 <= i ensures !EscapeAt(r, i) {
        if i > 0 {
          assert !EscapeAt(rest, i - 1);
        } else if |text| > 1 && text[0] == '\\' {
          EscapeCharsHead(text[1..]);
          assert text[1] != 'n';
        }
      }
    }
  }

  /** On a string with no backslash-`n` pair the rewrite is the identity. */
  lemma {:induction false} EscapeCharsFixesEscapeFree(text: string)
    requires !HasEscape(text)
    ensures EscapeChars(text) == text
    decreases |text|
  {
    if |text| > 0 {
      assert !EscapeAt(text, 0);
      var tail := text[1..];
      assert !HasEscape(tail) by {
        forall i | 0 <= i ensures !EscapeAt(tail, i) {
          assert !EscapeAt(text, i + 1);
        }
      }
      EscapeCharsFixesEscapeFree(tail);
    }
  }

  /** A string without any backslash is returned unchanged. */
  lemma EscapeCharsNoBackslash(text: string)
    requires '\\' !in text
    ensures EscapeChars(text) == text
  {
    assert forall i | 0 <= i < |text| :: text[i] != '\\';
    EscapeCharsFixesEscapeFree(text);
  }

  /** Applying the rewrite twice is the same as applying it once. */
  lemma EscapeCharsIdempotent(text: string)
    ensures EscapeChars(EscapeChars(text)) == EscapeChars(text)
  {
    EscapeCharsLeavesNoEscape(text);
    EscapeCharsFixesEscapeFree(EscapeChars(text));
  }

  /** Each replacement turns two characters into one newline, so the output is
      shorter than the input by exactly the number of newlines it gained. */
  lemma {:induction false} EscapeCharsLength(text: string)
    ensures |text| - |EscapeChars(text)| == Newlines(EscapeChars(text)) - Newlines(text)
    decreases |text|
  {
    if |text| == 0 {
    } else if EscapeAt(text, 0) {
      var rest := EscapeChars(text[2..]);
      EscapeCharsLength(text[2..]);
      assert Newlines(text) == Newlines(text[1..]) == Newlines(text[2..]) by {
        assert text[1..][1..] == text[2..];
      }
      assert ("\n" + rest)[1..] == rest;
    } else {
      var rest := EscapeChars(text[1..]);
      EscapeCharsLength(text[1..]);
      assert ([text[0]] + rest)[1..] == rest;
    }
  }

  /** Dropping a prefix of the left operand commutes with concatenation. */
  lemma DropConcat(a: string, b: string, n: nat)
    requires n <= |a|
    ensures (a + b)[n..] == a[n..] + b
  {
    var l := (a + b)[n..];
    var r := a[n..] + b;
    assert |l| == |r|;
    forall i | 0 <= i < |l| ensures l[i] == r[i] {
      if n + i < |a| {
        assert l[i] == a[n + i] == r[i];
      } else {
        assert l[i] == b[n + i - |a|] == r[i];
      }
    }
  }

  lemma AppendAssoc(x: string, y: string, z: string)
    ensures x + (y + z) == (x + y) + z
  {
  }

  /** The rewrite of a concatenation that starts with a match. */
  lemma EscapeCharsConcatMatch(a: string, b: string)
    requires EscapeAt(a, 0)
    ensures EscapeChars(a + b) == "\n" + EscapeChars(a[2..] + b)
  {
    assert EscapeAt(a + b, 0);
    DropConcat(a, b, 2);
  }

  /** The rewrite of a concatenation whose first character is copied. */
  lemma EscapeCharsConcatCopy(a: string, b: string)
    requires |a| > 0 && !EscapeAt(a, 0)
    requires !(|a| == 1 && a[0] == '\\' && |b| > 0 && b[0] == 'n')
    ensures EscapeChars(a + b) == [a[0]] + EscapeChars(a[1..] + b)
  {
    var ab := a + b;
    if |a| == 1 {
      assert !EscapeAt(ab, 0) by {
        if |b| > 0 {
          assert ab[0] == a[0] && ab[1] == b[0];
        }
      }
    } else {
      assert !EscapeAt(ab, 0) by {
        assert ab[0] == a[0] && ab[1] == a[1];
      }
    }
    DropConcat(a, b, 1);
  }

  /** The rewrite distributes over concatenation unless the cut separates a
      backslash from the `n` after it. */
  lemma {:induction false} EscapeCharsConcat(a: string, b: string)
    requires !(|a| > 0 && a[|a| - 1] == '\\' && |b| > 0 && b[0] == 'n')
    ensures EscapeChars(a + b) == EscapeChars(a) + EscapeChars(b)
    decreases |a|
  {
    if |a| == 0 {
      assert a + b == b;
    } else if EscapeAt(a, 0) {
      EscapeCharsConcatMatch(a, b);
      EscapeCharsConcat(a[2..], b);
      AppendAssoc("\n", EscapeChars(a[2..]), EscapeChars(b));
    } else {
      EscapeCharsConcatCopy(a, b);
      EscapeCharsConcat(a[1..], b);
      AppendAssoc([a[0]], EscapeChars(a[1..]), EscapeChars(b));
    }
  }

  /** Matching is left to right without overlap: in backslash, backslash, `n`
      only the second backslash pairs with the `n`. The general statement is the
      recursion of `EscapeChars` itself, which consumes a match before looking
      further; these instances show its effect on concrete strings. */
  lemma EscapeCharsLeftToRight()
    ensures EscapeChars("\\\\n") == "\\\n"
    ensures EscapeChars("\\n\\n") == "\n\n"
    ensures EscapeChars("a\\nb") == "a\nb"
  {
    assert !EscapeAt("\\\\n", 0);
    assert EscapeAt("\\n", 0);
    assert "\\\\n"[1..] == "\\n";
    assert "\\n\\n"[2..] == "\\n";
    assert "\\n"[2..] == "";
    assert "a\\nb"[1..] == "\\nb";
    assert "\\nb"[2..] == "b";
    assert "b"[1..] == "";
  }
}
