/** The JavaScript string operations the pages rely on: `trim`, `toLowerCase`
    and `includes`. */
module Text {

  /** ECMAScript WhiteSpace and LineTerminator code points, the ones `trim` strips. */
  predicate IsWhitespace(c: char)
  {
    c == ' ' || c == '\t' || c == '\n' || c == '\r' || c == '\U{000B}' || c == '\U{000C}' ||
    c == '\U{00A0}' || c == '\U{1680}' || ('\U{2000}' <= c <= '\U{200A}') ||
    c == '\U{2028}' || c == '\U{2029}' || c == '\U{202F}' || c == '\U{205F}' ||
    c == '\U{3000}' || c == '\U{FEFF}'
  }

  function TrimStart(s: string): (r: string)
    ensures |r| <= |s| && r == s[|s| - |r|..]
    ensures |r| > 0 ==> !IsWhitespace(r[0])
    // only whitespace was removed
    ensures forall i :: 0 <= i < |s| - |r| ==> IsWhitespace(s[i])
    decreases |s|
  {
    if |s| > 0 && IsWhitespace(s[0]) then TrimStart(s[1..]) else s
  }

  function TrimEnd(s: string): (r: string)
    ensures |r| <= |s| && r == s[..|r|]
    ensures |r| > 0 ==> !IsWhitespace(r[|r| - 1])
    // only whitespace was removed
    ensures forall i :: |r| <= i < |s| ==> IsWhitespace(s[i])
    decreases |s|
  {
    if |s| > 0 && IsWhitespace(s[|s| - 1]) then TrimEnd(s[..|s| - 1]) else s
  }

  /** `String.prototype.trim`. */
  function Trim(s: string): string
  {
    TrimEnd(TrimStart(s))
  }

  predicate AllWhitespace(s: string)
  {
    forall i :: 0 <= i < |s| ==> IsWhitespace(s[i])
  }

  /** `s.trim() === ""` */
  predicate IsBlank(s: string)
  {
    Trim(s) == ""
  }

  lemma {:induction false} TrimStartEmpty(s: string)
    ensures TrimStart(s) == "" <==> AllWhitespace(s)
    decreases |s|
  {
    if |s| > 0 && IsWhitespace(s[0]) {
      TrimStartEmpty(s[1..]);
      assert AllWhitespace(s) <==> AllWhitespace(s[1..]) by {
        if AllWhitespace(s[1..]) {
          forall i | 0 <= i < |s| ensures IsWhitespace(s[i]) {
            if i > 0 { assert s[i] == s[1..][i - 1]; }
          }
        }
      }
    }
  }

  lemma {:induction false} TrimEndEmpty(s: string)
    ensures TrimEnd(s) == "" <==> AllWhitespace(s)
    decreases |s|
  {
    if |s| > 0 && IsWhitespace(s[|s| - 1]) {
      var front := s[..|s| - 1];
      TrimEndEmpty(front);
      assert AllWhitespace(s) <==> AllWhitespace(front) by {
        if AllWhitespace(front) {
          forall i | 0 <= i < |s| ensures IsWhitespace(s[i]) {
            if i < |s| - 1 { assert s[i] == front[i]; }
          }
        }
      }
    }
  }

  /** A string is blank after trimming exactly when every character is whitespace. */
  lemma BlankIffAllWhitespace(s: string)
    ensures IsBlank(s) <==> AllWhitespace(s)
  {
    var t := TrimStart(s);
    TrimStartEmpty(s);
    TrimEndEmpty(t);
    if t != "" {
      assert !IsWhitespace(t[0]);
      assert !AllWhitespace(t);
    }
  }

  /** Trimming twice is trimming once. */
  lemma TrimIdempotent(s: string)
    ensures Trim(Trim(s)) == Trim(s)
  {
    var t := Trim(s);
    if |t| > 0 {
      assert t == TrimEnd(TrimStart(s));
      assert t == TrimStart(s)[..|t|];
      assert !IsWhitespace(t[0]);
      assert TrimStart(t) == t;
    }
  }

  /** `String.prototype.toLowerCase`, restricted to the ASCII letters. */
  function LowerChar(c: char): (r: char)
  {
    if 'A' <= c <= 'Z' then (c as int + 32) as char else c
  }

  function Lower(s: string): (r: string)
    ensures |r| == |s|
    ensures forall i :: 0 <= i < |s| ==> r[i] == LowerChar(s[i])
  {
    seq(|s|, i requires 0 <= i < |s| => LowerChar(s[i]))
  }

  /** Lower-casing never turns a non-blank search term blank, or a blank one non-blank. */
  lemma LowerKeepsBlank(s: string)
    ensures IsBlank(Lower(s)) <==> IsBlank(s)
  {
    BlankIffAllWhitespace(s);
    BlankIffAllWhitespace(Lower(s));
    forall i | 0 <= i < |s| ensures IsWhitespace(Lower(s)[i]) <==> IsWhitespace(s[i]) {
      LowerCharKeepsWhitespace(s[i]);
    }
  }

  lemma LowerCharKeepsWhitespace(c: char)
    ensures IsWhitespace(LowerChar(c)) <==> IsWhitespace(c)
  {
    if 'A' <= c <= 'Z' {
      assert 'a' <= LowerChar(c) <= 'z';
    }
  }

  lemma LowerIdempotent(s: string)
    ensures Lower(Lower(s)) == Lower(s)
  {
  }

  predicate IsPrefix(p: string, s: string)
  {
    |p| <= |s| && s[..|p|] == p
  }

  /** `s.includes(sub)`. */
  predicate Contains(s: string, sub: string)
    decreases |s|
  {
    IsPrefix(sub, s) || (|s| > 0 && Contains(s[1..], sub))
  }

  /** `sub` occurs in `s` starting at offset `i`. */
  predicate OccursAt(s: string, sub: string, i: int)
  {
    0 <= i <= |s| - |sub| && s[i..i + |sub|] == sub
  }

  /** `includes` holds exactly when `sub` occurs at some offset of `s`. */
  lemma {:induction false} ContainsAtOffset(s: string, sub: string)
    ensures Contains(s, sub) <==> exists i :: OccursAt(s, sub, i)
    decreases |s|
  {
    if IsPrefix(sub, s) {
      assert OccursAt(s, sub, 0);
    } else if |s| > 0 {
      ContainsAtOffset(s[1..], sub);
      if Contains(s[1..], sub) {
        var i :| OccursAt(s[1..], sub, i);
        assert s[i + 1..i + 1 + |sub|] == s[1..][i..i + |sub|];
        assert OccursAt(s, sub, i + 1);
      }
      if exists i :: OccursAt(s, sub, i) {
        var i :| OccursAt(s, sub, i);
        assert i != 0;
        assert s[1..][i - 1..i - 1 + |sub|] == s[i..i + |sub|];
        assert OccursAt(s[1..], sub, i - 1);
      }
    }
  }

  /** A string containing `t + more` contains `t`. */
  lemma {:induction false} ContainsLongerContainsPrefix(s: string, t: string, more: string)
    requires Contains(s, t + more)
    ensures Contains(s, t)
    decreases |s|
  {
    if IsPrefix(t + more, s) {
      assert s[..|t|] == (t + more)[..|t|];
    } else {
      ContainsLongerContainsPrefix(s[1..], t, more);
    }
  }

  lemma LowerAppend(a: string, b: string)
    ensures Lower(a + b) == Lower(a) + Lower(b)
  {
  }

  /** The case-insensitive match the pages use: `s.toLowerCase().includes(term.toLowerCase())`. */
  predicate MatchesIgnoringCase(s: string, term: string)
  {
    Contains(Lower(s), Lower(term))
  }
}
