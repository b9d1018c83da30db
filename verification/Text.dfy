/** The parts of Rust's `str` that the codec and the command protocol rely on. */
module Text {

  /** `str::split(sep)`: n separators give n + 1 parts, empty ones included. */
  function Split(s: string, sep: char): (parts: seq<string>)
    ensures |parts| >= 1
    ensures forall i | 0 <= i < |parts| :: sep !in parts[i]
    ensures Join(parts, sep) == s
  {
    if s == [] then [[]]
    else
      var rest := Split(s[1..], sep);
      if s[0] == sep then
        assert s == [] + [sep] + s[1..];
        [[]] + rest
      else
        var r := [[s[0]] + rest[0]] + rest[1..];
        assert Join(r, sep) == [s[0]] + Join(rest, sep) by { JoinHead(rest, s[0], sep); }
        r
  }

  function Join(parts: seq<string>, sep: char): string
    requires |parts| >= 1
  {
    if |parts| == 1 then parts[0] else parts[0] + [sep] + Join(parts[1..], sep)
  }

  lemma JoinHead(parts: seq<string>, c: char, sep: char)
    requires |parts| >= 1
    ensures Join([[c] + parts[0]] + parts[1..], sep) == [c] + Join(parts, sep)
  {
    var r := [[c] + parts[0]] + parts[1..];
    assert r[1..] == parts[1..];
    if |parts| > 1 {
      assert [c] + parts[0] + [sep] + Join(parts[1..], sep) == [c] + (parts[0] + [sep] + Join(parts[1..], sep));
    }
  }

  /** `Split` is the only way to cut a string into separator-free parts that join back to it. */
  lemma {:induction false} SplitJoin(parts: seq<string>, sep: char)
    requires |parts| >= 1
    requires forall i | 0 <= i < |parts| :: sep !in parts[i]
    ensures Split(Join(parts, sep), sep) == parts
    decreases |parts|, |parts[0]|
  {
    var s := Join(parts, sep);
    if parts[0] == [] {
      if |parts| == 1 {
        assert s == [];
      } else {
        assert s == [sep] + Join(parts[1..], sep);
        assert s[1..] == Join(parts[1..], sep);
        SplitJoin(parts[1..], sep);
      }
    } else {
      var c, tail := parts[0][0], [parts[0][1..]] + parts[1..];
      assert parts[0] == [c] + parts[0][1..];
      assert [[c] + tail[0]] + tail[1..] == parts;
      JoinHead(tail, c, sep);
      assert s == [c] + Join(tail, sep) && s[1..] == Join(tail, sep);
      assert parts[0][0] in parts[0];
      forall i | 0 <= i < |tail| ensures sep !in tail[i] {
        assert i > 0 ==> tail[i] == parts[i];
      }
      SplitJoin(tail, sep);
    }
  }

  /** `char::is_whitespace`: the Unicode White_Space property. */
  predicate IsSpace(c: char) {
    var n := c as int;
    9 <= n <= 13 || n == 0x20 || n == 0x85 || n == 0xA0 || n == 0x1680 || 0x2000 <= n <= 0x200A
    || n == 0x2028 || n == 0x2029 || n == 0x202F || n == 0x205F || n == 0x3000
  }

  predicate AllSpace(s: string) {
    forall i | 0 <= i < |s| :: IsSpace(s[i])
  }

  function TrimStart(s: string): (r: string)
    ensures |r| <= |s| && r == s[|s| - |r|..]
    ensures AllSpace(s[..|s| - |r|])
    ensures r != [] ==> !IsSpace(r[0])
  {
    if s != [] && IsSpace(s[0]) then
      var r := TrimStart(s[1..]);
      assert s[..|s| - |r|] == [s[0]] + s[1..][..|s| - 1 - |r|];
      r
    else s
  }

  function TrimEnd(s: string): (r: string)
    ensures |r| <= |s| && r == s[..|r|]
    ensures AllSpace(s[|r|..])
    ensures r != [] ==> !IsSpace(r[|r| - 1])
  {
    if s != [] && IsSpace(s[|s| - 1]) then
      var r := TrimEnd(s[..|s| - 1]);
      assert s[|r|..] == s[..|s| - 1][|r|..] + [s[|s| - 1]];
      r
    else s
  }

  /** `str::trim`. */
  function Trim(s: string): string {
    TrimEnd(TrimStart(s))
  }

  /** Trimming leaves nothing exactly when there was nothing but white space. */
  lemma TrimEmpty(s: string)
    ensures Trim(s) == [] <==> AllSpace(s)
  {
    var a := TrimStart(s);
    var b := TrimEnd(a);
    if b != [] {
      assert a[0] == s[|s| - |a|];
    } else if a == [] {
      assert s[..|s| - |a|] == s;
    }
  }

  /** Of the ASCII characters, white space is the blank and the five controls from tab to carriage return. */
  lemma AsciiSpace(c: char)
    requires c as int < 0x80
    ensures IsSpace(c) <==> c in {' ', '\t', '\n', '\r'} || c as int in {0x0B, 0x0C}
  {
  }

  lemma {:induction false} TrimStartIs(a: string, s: string)
    requires AllSpace(a) && (s != [] ==> !IsSpace(s[0]))
    ensures TrimStart(a + s) == s
  {
    if a == [] {
      assert a + s == s;
    } else {
      assert (a + s)[1..] == a[1..] + s;
      TrimStartIs(a[1..], s);
    }
  }

  lemma {:induction false} TrimEndIs(s: string, b: string)
    requires AllSpace(b) && (s != [] ==> !IsSpace(s[|s| - 1]))
    ensures TrimEnd(s + b) == s
  {
    if b == [] {
      assert s + b == s;
    } else {
      assert (s + b)[..|s + b| - 1] == s + b[..|b| - 1];
      TrimEndIs(s, b[..|b| - 1]);
    }
  }

  /** Trimming takes off all the white space around a text and nothing else: it is the only such cut. */
  lemma TrimIs(a: string, s: string, b: string)
    requires AllSpace(a) && AllSpace(b) && (s != [] ==> !IsSpace(s[0]) && !IsSpace(s[|s| - 1]))
    ensures Trim(a + s + b) == s
  {
    hide TrimStart, TrimEnd;
    if s == [] {
      assert a + s + b == (a + b) + [];
      AllSpaceConcat(a, b);
      TrimStartIs(a + b, []);
      TrimEndIs([], []);
      assert [] + [] == s;
    } else {
      assert a + s + b == a + (s + b);
      assert (s + b)[0] == s[0];
      TrimStartIs(a, s + b);
      TrimEndIs(s, b);
    }
  }

  lemma AllSpaceConcat(a: string, b: string)
    requires AllSpace(a) && AllSpace(b)
    ensures AllSpace(a + b)
  {
  }

  /** And every text has it. */
  lemma TrimCut(s: string) returns (a: string, b: string)
    ensures AllSpace(a) && AllSpace(b) && s == a + Trim(s) + b
    ensures Trim(s) != [] ==> !IsSpace(Trim(s)[0]) && !IsSpace(Trim(s)[|Trim(s)| - 1])
  {
    hide TrimStart, TrimEnd;
    var rest := TrimStart(s);
    a, b := s[..|s| - |rest|], rest[|TrimEnd(rest)|..];
    assert rest == TrimEnd(rest) + b && s == a + rest;
    if Trim(s) != [] {
      assert Trim(s)[0] == rest[0];
    }
  }

  lemma TrimStartKeeps(s: string)
    requires s != [] && !IsSpace(s[0])
    ensures TrimStart(s) == s
  {
  }

  lemma TrimEndKeeps(s: string)
    requires s != [] && !IsSpace(s[|s| - 1])
    ensures TrimEnd(s) == s && TrimEnd(s + ['\n']) == s
  {
    assert (s + ['\n'])[..|s|] == s;
  }

  /** A text without surrounding white space, and such a text as a line. */
  lemma TrimLine(s: string)
    requires s != []
    ensures Trim(s) == s <==> !IsSpace(s[0]) && !IsSpace(s[|s| - 1])
    ensures Trim(s) == s ==> Trim(s + ['\n']) == s
  {
    hide TrimStart, TrimEnd;
    if !IsSpace(s[0]) {
      TrimStartKeeps(s);
      TrimStartKeeps(s + ['\n']);
      if !IsSpace(s[|s| - 1]) {
        TrimEndKeeps(s);
      }
    }
  }

  /** `str::split_whitespace`: the maximal runs of non-space characters. */
  function Words(s: string): (ws: seq<string>)
    ensures forall i | 0 <= i < |ws| :: ws[i] != [] && forall j | 0 <= j < |ws[i]| :: !IsSpace(ws[i][j])
    decreases |s|
  {
    if s == [] then []
    else if IsSpace(s[0]) then Words(s[1..])
    else
      var n := WordLength(s);
      [s[..n]] + Words(s[n..])
  }

  function WordLength(s: string): (n: nat)
    ensures n <= |s|
    ensures forall i | 0 <= i < n :: !IsSpace(s[i])
    ensures n < |s| ==> IsSpace(s[n])
    ensures s != [] && !IsSpace(s[0]) ==> n > 0
  {
    if s == [] || IsSpace(s[0]) then 0 else 1 + WordLength(s[1..])
  }

  /** Words with white space around and between them. */
  function Weave(gaps: seq<string>, words: seq<string>): string
    requires |gaps| == |words| + 1
  {
    if words == [] then gaps[0] else gaps[0] + (words[0] + Weave(gaps[1..], words[1..]))
  }

  predicate NoSpace(s: string) {
    forall i | 0 <= i < |s| :: !IsSpace(s[i])
  }

  /** Only between two words must there be a gap. */
  predicate Spaced(gaps: seq<string>, words: seq<string>) {
    && |gaps| == |words| + 1
    && (forall i | 0 <= i < |gaps| :: AllSpace(gaps[i]) && (0 < i < |words| ==> gaps[i] != []))
    && (forall i | 0 <= i < |words| :: words[i] != [] && NoSpace(words[i]))
  }

  lemma {:induction false} WordLengthIs(word: string, rest: string)
    requires NoSpace(word) && (rest != [] ==> IsSpace(rest[0]))
    ensures WordLength(word + rest) == |word|
  {
    if word == [] {
      assert word + rest == rest;
    } else {
      assert (word + rest)[1..] == word[1..] + rest;
      WordLengthIs(word[1..], rest);
    }
  }

  lemma {:induction false} WordsSkip(gap: string, rest: string)
    requires AllSpace(gap)
    ensures Words(gap + rest) == Words(rest)
  {
    if gap == [] {
      assert gap + rest == rest;
    } else {
      assert (gap + rest)[1..] == gap[1..] + rest;
      WordsSkip(gap[1..], rest);
    }
  }

  /** What follows a word is white space, or nothing. */
  lemma SpaceFollows(gaps: seq<string>, words: seq<string>)
    requires Spaced(gaps, words) && words != []
    ensures Spaced(gaps[1..], words[1..])
    ensures var rest := Weave(gaps[1..], words[1..]); rest != [] ==> IsSpace(rest[0])
  {
    assert gaps[1..][0] == gaps[1] && AllSpace(gaps[1]);
    forall i | 0 <= i < |gaps[1..]| ensures AllSpace(gaps[1..][i]) && (0 < i < |words[1..]| ==> gaps[1..][i] != []) {
      assert gaps[1..][i] == gaps[i + 1];
    }
    if |words| > 1 {
      assert gaps[1] != [];
    }
  }

  /** The words are the only way to cut a text into space-free parts with white space around and between. */
  lemma {:induction false} WordsWeave(gaps: seq<string>, words: seq<string>)
    requires Spaced(gaps, words)
    ensures Words(Weave(gaps, words)) == words
    decreases |words|
  {
    if words == [] {
      assert gaps[0] + [] == gaps[0];
      WordsSkip(gaps[0], []);
    } else {
      hide AllSpace, IsSpace;
      var rest := Weave(gaps[1..], words[1..]);
      SpaceFollows(gaps, words);
      WordsSkip(gaps[0], words[0] + rest);
      WordLengthIs(words[0], rest);
      assert (words[0] + rest)[..|words[0]|] == words[0] && (words[0] + rest)[|words[0]|..] == rest;
      assert NoSpace(words[0]) && (words[0] + rest)[0] == words[0][0];
      WordsWeave(gaps[1..], words[1..]);
    }
  }

  lemma WeaveSpace(c: char, gaps: seq<string>, words: seq<string>)
    requires IsSpace(c) && Spaced(gaps, words)
    ensures var more := [[c] + gaps[0]] + gaps[1..];
            Spaced(more, words) && Weave(more, words) == [c] + Weave(gaps, words)
  {
    hide IsSpace;
    var more := [[c] + gaps[0]] + gaps[1..];
    assert more[1..] == gaps[1..];
    if words != [] {
      assert [c] + (gaps[0] + (words[0] + Weave(gaps[1..], words[1..])))
          == ([c] + gaps[0]) + (words[0] + Weave(gaps[1..], words[1..]));
    }
    assert AllSpace(gaps[0]);
    SpaceBefore(c, gaps[0]);
  }

  lemma SpaceBefore(c: char, s: string)
    requires IsSpace(c) && AllSpace(s)
    ensures AllSpace([c] + s)
  {
  }

  lemma WeaveNothing()
    ensures Spaced([[]], []) && Weave([[]], []) == []
  {
  }

  lemma FirstWord(s: string)
    requires s != [] && !IsSpace(s[0])
    ensures var n := WordLength(s);
            && n > 0 && NoSpace(s[..n]) && Words(s) == [s[..n]] + Words(s[n..])
            && (Words(s[n..]) != [] ==> n < |s| && IsSpace(s[n]))
  {
  }

  /** And every text is cut that way. */
  lemma {:induction false} WordsCut(s: string) returns (gaps: seq<string>)
    ensures Spaced(gaps, Words(s)) && Weave(gaps, Words(s)) == s
    decreases |s|
  {
    hide Spaced, Weave, AllSpace, NoSpace, IsSpace, WordLength;
    if s == [] {
      WeaveNothing();
      gaps := [[]];
    } else if IsSpace(s[0]) {
      gaps := WordsCut(s[1..]);
      SpacedLengths(gaps, Words(s));
      WeaveSpace(s[0], gaps, Words(s));
      assert s == [s[0]] + s[1..];
      gaps := [[s[0]] + gaps[0]] + gaps[1..];
    } else {
      FirstWord(s);
      hide Words;
      var n := WordLength(s);
      gaps := WordsCut(s[n..]);
      SpacedLengths(gaps, Words(s[n..]));
      if Words(s[n..]) != [] {
        GapBefore(s[n..], gaps, Words(s[n..]));
      }
      WeaveWord(s[..n], s[n..], gaps, Words(s[n..]));
      assert s[..n] + s[n..] == s;
      gaps := [[]] + gaps;
    }
  }

  lemma SpacedLengths(gaps: seq<string>, words: seq<string>)
    requires Spaced(gaps, words)
    ensures |gaps| == |words| + 1
  {
  }

  lemma WeaveWord(word: string, rest: string, gaps: seq<string>, words: seq<string>)
    requires word != [] && NoSpace(word) && Spaced(gaps, words) && Weave(gaps, words) == rest
    requires words != [] ==> gaps[0] != []
    ensures Spaced([[]] + gaps, [word] + words) && Weave([[]] + gaps, [word] + words) == word + rest
  {
    hide AllSpace, NoSpace;
    var more, all := [[]] + gaps, [word] + words;
    assert more[1..] == gaps && all[1..] == words;
    assert [] + (word + rest) == word + rest;
    EmptyIsSpace();
    forall i | 0 <= i < |more| ensures AllSpace(more[i]) && (0 < i < |all| ==> more[i] != []) {
      assert more[i] == if i == 0 then [] else gaps[i - 1];
    }
    forall i | 0 <= i < |all| ensures all[i] != [] && NoSpace(all[i]) {
      assert all[i] == if i == 0 then word else words[i - 1];
    }
  }

  lemma EmptyIsSpace()
    ensures AllSpace([])
  {
  }

  lemma GapBefore(s: string, gaps: seq<string>, words: seq<string>)
    requires Spaced(gaps, words) && words != [] && Weave(gaps, words) == s && s != [] && IsSpace(s[0])
    ensures gaps[0] != []
  {
  }

  predicate StartsWith(s: string, prefix: string) {
    prefix <= s
  }
}
