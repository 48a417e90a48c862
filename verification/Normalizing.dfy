/**
 `normalize_text` on a sequence of NFC characters: the one-pass buffer algorithm and the
 split/trim/join pipeline it replaced (crates/context-budget/src/hash.rs).
 */
module Normalizing {
  import opened Order

  predicate IsBlank(c: char) {
    c == ' ' || c == '\t' || c == '\U{000b}' || c == '\U{000c}'
  }

  // -------------------------------------------------------------- the pipeline

  /** CRLF and CR become LF. */
  function Unify(s: string): string {
    if s == [] then []
    else if s[0] == '\r' then ['\n'] + Unify(if |s| > 1 && s[1] == '\n' then s[2..] else s[1..])
    else [s[0]] + Unify(s[1..])
  }

  function Split(s: string): (lines: seq<string>)
    ensures lines != []
  {
    if s == [] then [[]]
    else if s[0] == '\n' then [[]] + Split(s[1..])
    else
      var rest := Split(s[1..]);
      [[s[0]] + rest[0]] + rest[1..]
  }

  function TrimEnd(line: string): string {
    if line != [] && IsBlank(line[|line| - 1]) then TrimEnd(line[..|line| - 1]) else line
  }

  function TrimAll(lines: seq<string>): (r: seq<string>)
    ensures |r| == |lines|
  {
    if lines == [] then [] else [TrimEnd(lines[0])] + TrimAll(lines[1..])
  }

  function Join(lines: seq<string>): string {
    if lines == [] then []
    else if |lines| == 1 then lines[0]
    else lines[0] + ['\n'] + Join(lines[1..])
  }

  function DropNewlines(s: string): string {
    if s != [] && s[|s| - 1] == '\n' then DropNewlines(s[..|s| - 1]) else s
  }

  function Trimmed(s: string): string {
    Join(TrimAll(Split(s)))
  }

  function Pipeline(s: string): string {
    DropNewlines(Trimmed(Unify(s)))
  }

  // ------------------------------------------------------------- what the steps mean

  /** Space, tab, vertical tab and form feed. */
  lemma BlankMeans(c: char)
    ensures IsBlank(c) <==> c as int in {9, 11, 12, 32}
  {
  }

  /** Trimming takes away exactly the blanks at the end. */
  lemma {:induction false} TrimEndMeans(line: string)
    ensures TrimEnd(line) <= line && (forall i :: |TrimEnd(line)| <= i < |line| ==> IsBlank(line[i]))
    ensures TrimEnd(line) != [] ==> !IsBlank(TrimEnd(line)[|TrimEnd(line)| - 1])
  {
    if line != [] && IsBlank(line[|line| - 1]) { TrimEndMeans(line[..|line| - 1]); }
  }

  /** Line breaks of any kind become newlines, one for one, and nothing else changes. */
  lemma UnifyMeans(c: char, s: string)
    ensures Unify([]) == []
    ensures Unify(['\r', '\n'] + s) == ['\n'] + Unify(s)
    ensures s == [] || s[0] != '\n' ==> Unify(['\r'] + s) == ['\n'] + Unify(s)
    ensures c != '\r' ==> Unify([c] + s) == [c] + Unify(s)
  {
    assert (['\r', '\n'] + s)[2..] == s;
    assert (['\r'] + s)[1..] == s && ([c] + s)[1..] == s;
  }

  /** Lines are what stands between newlines. */
  lemma {:induction false} SplitMeans(s: string)
    ensures Join(Split(s)) == s && forall line :: line in Split(s) ==> '\n' !in line
  {
    if s != [] {
      SplitMeans(s[1..]);
      JoinStep(s[0], Split(s[1..]));
      LinesStep(s[0], Split(s[1..]));
      assert s == [s[0]] + s[1..];
    }
  }

  /** A newline in front opens a line; another character joins the first one. */
  lemma {:induction false} JoinStep(c: char, rest: seq<string>)
    requires rest != []
    ensures Join([[]] + rest) == ['\n'] + Join(rest)
    ensures Join([[c] + rest[0]] + rest[1..]) == [c] + Join(rest)
  {
    JoinOpened(rest);
    JoinLonger(c, rest[0], rest[1..]);
    assert rest == [rest[0]] + rest[1..];
  }

  lemma {:induction false} JoinOpened(rest: seq<string>)
    requires rest != []
    ensures Join([[]] + rest) == ['\n'] + Join(rest)
  {
    assert ([[]] + rest)[1..] == rest;
  }

  lemma {:induction false} JoinLonger(c: char, line: string, lines: seq<string>)
    ensures Join([[c] + line] + lines) == [c] + Join([line] + lines)
  {
    if lines != [] {
      assert ([[c] + line] + lines)[1..] == lines && ([line] + lines)[1..] == lines;
      assert [c] + line + (['\n'] + Join(lines)) == [c] + (line + (['\n'] + Join(lines)));
    }
  }

  lemma LinesStep(c: char, rest: seq<string>)
    requires rest != [] && forall line :: line in rest ==> '\n' !in line
    ensures forall line :: line in [[]] + rest ==> '\n' !in line
    ensures c != '\n' ==> forall line :: line in [[c] + rest[0]] + rest[1..] ==> '\n' !in line
  {
    assert rest[0] in rest;
  }

  /** Only newlines are dropped from the end, and all of them. */
  lemma {:induction false} DropNewlinesMeans(s: string)
    ensures DropNewlines(s) <= s && (forall i :: |DropNewlines(s)| <= i < |s| ==> s[i] == '\n')
    ensures DropNewlines(s) != [] ==> DropNewlines(s)[|DropNewlines(s)| - 1] != '\n'
  {
    if s != [] && s[|s| - 1] == '\n' { DropNewlinesMeans(s[..|s| - 1]); }
  }

  // ------------------------------------------------------------- the one-pass form

  /** `done` is finished, `line` is pending, and the characters from `i` on are unread. */
  ghost predicate Progress(chars: string, i: nat, done: string, line: string) {
    && i <= |chars| && '\n' !in line
    && Trimmed(Unify(chars)) == done + Trimmed(line + Unify(chars[i..]))
  }

  /** The buffer holds the finished lines and the pending one; the index stands behind the last character that is not a
      trailing blank. */
  ghost predicate Holds(buffer: string, lineEnd: nat, done: string, line: string) {
    && buffer == done + line && lineEnd == |done| + |TrimEnd(line)| <= |buffer|
    && buffer[..lineEnd] == done + TrimEnd(line)
  }

  /** One buffer, one index: a newline cuts the buffer back to the last character that is not a trailing blank. */
  method NormalizeText(chars: string) returns (normalized: string)
    ensures normalized == Pipeline(chars)
  {
    normalized := [];
    var lineEnd: nat, i: nat := 0, 0;
    ghost var done, line := [], [];
    ProgressStarts(chars);
    while i < |chars|
      invariant Progress(chars, i, done, line) && Holds(normalized, lineEnd, done, line)
    {
      var ch, before := chars[i], i;
      i := i + 1;
      if ch == '\r' || ch == '\n' {
        if ch == '\r' && i < |chars| && chars[i] == '\n' { i := i + 1; }
        ProgressNewline(chars, before, i, done, line);
        normalized := normalized[..lineEnd] + ['\n'];
        lineEnd := |normalized|;
        done, line := normalized, [];
        HoldsNewLine(done);
      } else {
        ProgressCharacter(chars, before, done, line);
        HoldsCharacter(normalized, lineEnd, done, line, ch);
        normalized := normalized + [ch];
        line := line + [ch];
        if !IsBlank(ch) { lineEnd := |normalized|; }
      }
    }
    ProgressEnds(chars, done, line);
    normalized := PopNewlines(normalized[..lineEnd]);
  }

  /** Drops newlines from the end. */
  method PopNewlines(s: string) returns (r: string)
    ensures r == DropNewlines(s)
  {
    r := s;
    while r != [] && r[|r| - 1] == '\n'
      invariant DropNewlines(r) == DropNewlines(s)
    {
      r := r[..|r| - 1];
    }
  }

  lemma ProgressStarts(chars: string)
    ensures Progress(chars, 0, [], []) && Holds([], 0, [], [])
  {
    assert chars[0..] == chars && [] + Unify(chars) == Unify(chars);
    assert [] + Trimmed(Unify(chars)) == Trimmed(Unify(chars));
  }

  lemma ProgressEnds(chars: string, done: string, line: string)
    requires Progress(chars, |chars|, done, line)
    ensures Trimmed(Unify(chars)) == done + TrimEnd(line)
  {
    assert line + Unify(chars[|chars|..]) == line;
    TrimmedOfLine(line);
  }

  /** A newline in any of its three forms is read as one. */
  lemma UnifyNewline(chars: string, i: nat, j: nat)
    requires i < |chars| && (chars[i] == '\r' || chars[i] == '\n')
    requires j == if chars[i] == '\r' && i + 1 < |chars| && chars[i + 1] == '\n' then i + 2 else i + 1
    ensures Unify(chars[i..]) == ['\n'] + Unify(chars[j..])
  {
    var s := chars[i..];
    assert s[1..] == chars[i + 1..] && (|s| > 1 ==> s[1] == chars[i + 1] && s[2..] == chars[i + 2..]);
  }

  lemma ProgressNewline(chars: string, i: nat, j: nat, done: string, line: string)
    requires Progress(chars, i, done, line) && i < |chars| && (chars[i] == '\r' || chars[i] == '\n')
    requires j == if chars[i] == '\r' && i + 1 < |chars| && chars[i + 1] == '\n' then i + 2 else i + 1
    ensures Progress(chars, j, done + TrimEnd(line) + ['\n'], [])
  {
    var rest := Unify(chars[j..]);
    UnifyNewline(chars, i, j);
    Regroup(done, line, Unify(chars[i..]), rest);
    assert [] + rest == rest;
  }

  lemma ProgressCharacter(chars: string, i: nat, done: string, line: string)
    requires Progress(chars, i, done, line) && i < |chars| && chars[i] != '\r' && chars[i] != '\n'
    ensures Progress(chars, i + 1, done, line + [chars[i]])
  {
    var s := chars[i..];
    assert s[1..] == chars[i + 1..];
    assert Unify(s) == [chars[i]] + Unify(chars[i + 1..]);
    Assoc(line, [chars[i]], Unify(chars[i + 1..]));
  }

  lemma HoldsNewLine(done: string)
    ensures Holds(done, |done|, done, [])
  {
    assert done + [] == done;
  }

  lemma HoldsCharacter(buffer: string, lineEnd: nat, done: string, line: string, ch: char)
    requires Holds(buffer, lineEnd, done, line)
    ensures Holds(buffer + [ch], if IsBlank(ch) then lineEnd else |buffer| + 1, done, line + [ch])
  {
    TrimStep(line, ch);
    Assoc(done, line, [ch]);
    assert (buffer + [ch])[..lineEnd] == buffer[..lineEnd];
  }

  lemma TrimStep(line: string, ch: char)
    ensures TrimEnd(line + [ch]) == if IsBlank(ch) then TrimEnd(line) else line + [ch]
    ensures TrimEnd(line) <= line
  {
    assert (line + [ch])[..|line|] == line;
    TrimIsPrefix(line);
  }

  lemma {:induction false} TrimIsPrefix(line: string)
    ensures TrimEnd(line) <= line
    ensures TrimEnd(line) != [] ==> !IsBlank(TrimEnd(line)[|TrimEnd(line)| - 1])
    ensures forall c :: c in TrimEnd(line) ==> c in line
  {
    if line != [] && IsBlank(line[|line| - 1]) { TrimIsPrefix(line[..|line| - 1]); }
  }

  lemma {:induction false} SplitAtNewline(line: string, rest: string)
    requires '\n' !in line
    ensures Split(line) == [line]
    ensures Split(line + ['\n'] + rest) == [line] + Split(rest)
  {
    if line == [] {
      assert line + ['\n'] + rest == ['\n'] + rest;
    } else {
      SplitAtNewline(line[1..], rest);
      assert (line + ['\n'] + rest)[1..] == line[1..] + ['\n'] + rest;
      assert line == [line[0]] + line[1..];
    }
  }

  lemma TrimmedOfLine(line: string)
    requires '\n' !in line
    ensures Trimmed(line) == TrimEnd(line)
  {
    SplitAtNewline(line, []);
    assert [line][1..] == [];
  }

  lemma TrimmedAtNewline(line: string, rest: string)
    requires '\n' !in line
    ensures Trimmed(line + ['\n'] + rest) == TrimEnd(line) + ['\n'] + Trimmed(rest)
  {
    SplitAtNewline(line, rest);
    assert ([line] + Split(rest))[1..] == Split(rest);
    var trimmed := TrimAll([line] + Split(rest));
    assert trimmed == [TrimEnd(line)] + TrimAll(Split(rest));
    assert trimmed[1..] == TrimAll(Split(rest));
  }

  /** Moves a finished line from the pending text to the finished text. */
  lemma Regroup(done: string, line: string, pending: string, rest: string)
    requires '\n' !in line && pending == ['\n'] + rest
    ensures done + Trimmed(line + pending) == (done + TrimEnd(line) + ['\n']) + Trimmed(rest)
  {
    TrimmedAtNewline(line, rest);
    Assoc(line, ['\n'], rest);
    Assoc(TrimEnd(line), ['\n'], Trimmed(rest));
    Assoc(done, TrimEnd(line), ['\n']);
    Assoc(done, TrimEnd(line) + ['\n'], Trimmed(rest));
  }

  // ------------------------------------------------- normal forms and idempotence

  /** No blank ends the text or stands before a newline. */
  ghost predicate Tidy(s: string) {
    forall i :: 0 <= i < |s| && IsBlank(s[i]) ==> i + 1 < |s| && s[i + 1] != '\n'
  }

  /** A text that needs no normalisation. */
  ghost predicate Normal(s: string) {
    '\r' !in s && Tidy(s) && (s != [] ==> s[|s| - 1] != '\n')
  }

  lemma {:induction false} UnifyRemovesReturns(s: string)
    ensures '\r' !in Unify(s)
    ensures '\r' !in s ==> Unify(s) == s
    decreases |s|
  {
    if s != [] {
      if s[0] == '\r' && |s| > 1 && s[1] == '\n' { UnifyRemovesReturns(s[2..]); } else { UnifyRemovesReturns(s[1..]); }
    }
  }

  lemma {:induction false} SplitCharacters(s: string, k: nat)
    requires k < |Split(s)|
    ensures '\n' !in Split(s)[k]
    ensures forall c :: c in Split(s)[k] ==> c in s
  {
    if s != [] {
      if s[0] == '\n' {
        if k > 0 { SplitCharacters(s[1..], k - 1); }
      } else {
        SplitCharacters(s[1..], k);
      }
    }
  }

  lemma {:induction false} TrimAllAt(lines: seq<string>, k: nat)
    requires k < |lines|
    ensures TrimAll(lines)[k] == TrimEnd(lines[k])
  {
    if k > 0 { TrimAllAt(lines[1..], k - 1); }
  }

  /** Lines that end without a blank join to a tidy text. */
  lemma {:induction false} JoinTidy(lines: seq<string>)
    requires forall k :: 0 <= k < |lines| ==> '\n' !in lines[k] && TrimEnd(lines[k]) == lines[k]
    ensures Tidy(Join(lines))
    ensures forall c :: c in Join(lines) ==> c == '\n' || exists k :: 0 <= k < |lines| && c in lines[k]
  {
    if lines != [] {
      var line := lines[0];
      TrimIsPrefix(line);
      forall i | 0 <= i < |line| && IsBlank(line[i]) ensures i + 1 < |line| && line[i + 1] != '\n' {
        assert line[i] in line;
      }
      if |lines| > 1 {
        var rest := Join(lines[1..]);
        JoinTidy(lines[1..]);
        var all := line + ['\n'] + rest;
        forall i | 0 <= i < |all| && IsBlank(all[i]) ensures i + 1 < |all| && all[i + 1] != '\n' {
          if i > |line| { assert IsBlank(rest[i - |line| - 1]); }
        }
        forall c | c in all ensures c == '\n' || exists k :: 0 <= k < |lines| && c in lines[k] {
          if c in rest && c != '\n' {
            var k :| 0 <= k < |lines[1..]| && c in lines[1..][k];
            assert c in lines[k + 1];
          }
        }
      }
    }
  }

  lemma {:induction false} TrimTwice(line: string)
    ensures TrimEnd(TrimEnd(line)) == TrimEnd(line)
  {
    TrimIsPrefix(line);
  }

  lemma TrimmedTidy(s: string)
    ensures Tidy(Trimmed(s))
    ensures '\r' !in s ==> '\r' !in Trimmed(s)
  {
    var lines := TrimAll(Split(s));
    forall k | 0 <= k < |lines|
      ensures '\n' !in lines[k] && TrimEnd(lines[k]) == lines[k] && (forall c :: c in lines[k] ==> c in s)
    {
      TrimAllAt(Split(s), k);
      SplitCharacters(s, k);
      TrimIsPrefix(Split(s)[k]);
      TrimTwice(Split(s)[k]);
    }
    JoinTidy(lines);
  }

  lemma {:induction false} DropKeepsTidy(s: string)
    requires Tidy(s) && '\r' !in s
    ensures Normal(DropNewlines(s))
  {
    if s != [] && s[|s| - 1] == '\n' {
      var front := s[..|s| - 1];
      forall i | 0 <= i < |front| && IsBlank(front[i]) ensures i + 1 < |front| && front[i + 1] != '\n' {
        assert s[i] == front[i];
      }
      DropKeepsTidy(front);
    }
  }

  lemma {:induction false} TidyLines(s: string, k: nat)
    requires Tidy(s) && k < |Split(s)|
    ensures TrimEnd(Split(s)[k]) == Split(s)[k]
    ensures Split(s)[0] == [] <==> s == [] || s[0] == '\n'
  {
    if s != [] {
      var t := s[1..];
      forall i | 0 <= i < |t| && IsBlank(t[i]) ensures i + 1 < |t| && t[i + 1] != '\n' { assert s[i + 1] == t[i]; }
      if s[0] == '\n' {
        if k > 0 { TidyLines(t, k - 1); }
      } else {
        TidyLines(t, k);
        TidyLines(t, 0);
        if k == 0 {
          var line := [s[0]] + Split(t)[0];
          TrimIsPrefix(Split(t)[0]);
          assert line == Split(s)[0];
          if Split(t)[0] != [] { assert line[|line| - 1] == Split(t)[0][|Split(t)[0]| - 1]; }
        }
      }
    }
  }

  lemma {:induction false} JoinSplit(s: string)
    ensures Join(Split(s)) == s
  {
    if s != [] {
      JoinSplit(s[1..]);
      var rest := Split(s[1..]);
      if s[0] == '\n' {
        assert ([[]] + rest)[1..] == rest;
      } else if |rest| > 1 {
        var lines := [[s[0]] + rest[0]] + rest[1..];
        assert lines[1..] == rest[1..];
      }
    }
  }

  /** The normal texts are exactly those the pipeline leaves alone. */
  lemma NormalIsFixed(s: string)
    ensures Pipeline(s) == s <==> Normal(s)
  {
    if Normal(s) {
      UnifyRemovesReturns(s);
      var lines := Split(s);
      forall k | 0 <= k < |lines| ensures TrimAll(lines)[k] == lines[k] {
        TrimAllAt(lines, k);
        TidyLines(s, k);
      }
      assert TrimAll(lines) == lines;
      JoinSplit(s);
    } else {
      PipelineNormal(s);
    }
  }

  lemma PipelineNormal(s: string)
    ensures Normal(Pipeline(s))
  {
    UnifyRemovesReturns(s);
    TrimmedTidy(Unify(s));
    DropKeepsTidy(Trimmed(Unify(s)));
  }

  /** Normalising twice is normalising once. */
  lemma NormalizeIdempotent(s: string)
    ensures Pipeline(Pipeline(s)) == Pipeline(s)
  {
    PipelineNormal(s);
    NormalIsFixed(Pipeline(s));
  }
}
