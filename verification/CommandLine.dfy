/** Command lines as text: whitespace separates words, and quotes of either kind keep together what
    they enclose, with no escapes. */
module CommandLine {
  import Common

  datatype SplitError = Unclosed(quote: char) | Empty
  datatype Result = Ok(words: seq<string>) | Err(error: SplitError)

  predicate IsQuote(c: char) { c == '"' || c == '\'' }

  /** The Unicode White_Space property. */
  predicate IsSpace(c: char) {
    || '\U{0009}' <= c <= '\U{000d}' || c == ' ' || c == '\U{0085}' || c == '\U{00a0}' || c == '\U{1680}'
    || '\U{2000}' <= c <= '\U{200a}' || c == '\U{2028}' || c == '\U{2029}' || c == '\U{202f}' || c == '\U{205f}'
    || c == '\U{3000}'
  }

  // ---- Splitting ----------------------------------------------------------------------------

  datatype Quoting = Bare | Within(open: char)

  /** How far a line is read: the words so far, the current one, and the open quote. */
  datatype Reading = Reading(words: seq<string>, word: string, inWord: bool, quote: Quoting)

  const START := Reading([], "", false, Bare)

  function Read(s: Reading, c: char): Reading {
    match s.quote
    case Within(open) => if c == open then s.(quote := Bare) else s.(word := s.word + [c])
    case Bare =>
      if IsQuote(c) then s.(quote := Within(c), inWord := true)
      else if IsSpace(c) then
        if s.inWord then Reading(s.words + [s.word], "", false, Bare) else s
      else s.(word := s.word + [c], inWord := true)
  }

  function ReadAll(s: Reading, line: string): Reading {
    if line == "" then s else Read(ReadAll(s, line[..|line| - 1]), line[|line| - 1])
  }

  function Finished(s: Reading): Result {
    if s.quote.Within? then Err(Unclosed(s.quote.open))
    else
      var words := if s.inWord then s.words + [s.word] else s.words;
      if words == [] then Err(Empty) else Ok(words)
  }

  function SplitOf(line: string): Result {
    Finished(ReadAll(START, line))
  }

  method Split(line: string) returns (r: Result)
    ensures r == SplitOf(line)
  {
    var words, word, inWord, quote := [], "", false, Bare;
    for i := 0 to |line|
      invariant ReadAll(START, line[..i]) == Reading(words, word, inWord, quote)
    {
      var c := line[i];
      assert line[..i + 1][..i] == line[..i];
      if quote.Within? && c == quote.open {
        quote := Bare;
      } else if quote.Within? {
        word := word + [c];
      } else if IsQuote(c) {
        quote, inWord := Within(c), true;
      } else if IsSpace(c) {
        if inWord {
          words, word, inWord := words + [word], "", false;
        }
      } else {
        word, inWord := word + [c], true;
      }
    }
    assert line[..|line|] == line;
    if quote.Within? {
      return Err(Unclosed(quote.open));
    }
    if inWord {
      words := words + [word];
    }
    if words == [] {
      return Err(Empty);
    }
    r := Ok(words);
  }

  // ---- Joining ------------------------------------------------------------------------------

  predicate IsPlain(word: string) {
    word != "" && forall i :: 0 <= i < |word| ==> !IsSpace(word[i]) && !IsQuote(word[i])
  }

  function Quoted(word: string): string {
    if IsPlain(word) then word
    else if '"' in word then ['\''] + word + ['\'']
    else ['"'] + word + ['"']
  }

  function Join(words: seq<string>): string {
    if words == [] then ""
    else if |words| == 1 then Quoted(words[0])
    else Join(words[..|words| - 1]) + [' '] + Quoted(words[|words| - 1])
  }

  /** A word that can be quoted: it hasn't both kinds of quote. */
  predicate Quotable(word: string) {
    !('"' in word && '\'' in word)
  }

  // ---- Reading back what was joined ---------------------------------------------------------

  lemma {:induction false} ReadBoth(s: Reading, a: string, b: string)
    ensures ReadAll(s, a + b) == ReadAll(ReadAll(s, a), b)
  {
    if b == "" {
      assert a + b == a;
    } else {
      ReadBoth(s, a, b[..|b| - 1]);
      assert (a + b)[..|a + b| - 1] == a + b[..|b| - 1];
    }
  }

  lemma ReadOne(s: Reading, c: char)
    ensures ReadAll(s, [c]) == Read(s, c)
  {
    assert [c][..0] == "";
    assert ReadAll(s, "") == s;
  }

  lemma {:induction false} ReadPlain(words: seq<string>, word: string)
    requires forall i :: 0 <= i < |word| ==> !IsSpace(word[i]) && !IsQuote(word[i])
    ensures ReadAll(Reading(words, "", false, Bare), word) == Reading(words, word, word != "", Bare)
  {
    if word != "" {
      ReadPlain(words, word[..|word| - 1]);
    }
  }

  lemma {:induction false} ReadWithin(words: seq<string>, before: string, text: string, q: char)
    requires q !in text
    ensures ReadAll(Reading(words, before, true, Within(q)), text) ==
            Reading(words, before + text, true, Within(q))
  {
    if text == "" {
      assert before + text == before;
    } else {
      ReadWithin(words, before, text[..|text| - 1], q);
      assert before + text[..|text| - 1] + [text[|text| - 1]] == before + text;
    }
  }

  /** A quoted word is read back as it was. */
  lemma ReadQuoted(words: seq<string>, word: string)
    requires Quotable(word)
    ensures ReadAll(Reading(words, "", false, Bare), Quoted(word)) == Reading(words, word, true, Bare)
  {
    if IsPlain(word) {
      ReadPlain(words, word);
    } else {
      var q := if '"' in word then '\'' else '"';
      var s := Reading(words, "", false, Bare);
      ReadBoth(s, [q] + word, [q]);
      ReadBoth(s, [q], word);
      ReadOne(s, q);
      ReadWithin(words, "", word, q);
      ReadOne(Reading(words, word, true, Within(q)), q);
      assert "" + word == word;
    }
  }

  lemma {:induction false} ReadJoined(words: seq<string>)
    requires words != [] && forall i :: 0 <= i < |words| ==> Quotable(words[i])
    ensures ReadAll(START, Join(words)) == Reading(words[..|words| - 1], words[|words| - 1], true, Bare)
  {
    var n := |words| - 1;
    if n == 0 {
      ReadQuoted([], words[0]);
      assert words[..0] == [];
    } else {
      ReadJoined(words[..n]);
      ReadSpaceAndWord(words, n);
    }
  }

  /** After the first `n` words, a space and the next one. */
  lemma ReadSpaceAndWord(words: seq<string>, n: nat)
    requires 0 < n < |words| && Quotable(words[n])
    requires ReadAll(START, Join(words[..n])) == Reading(words[..n - 1], words[n - 1], true, Bare)
    ensures ReadAll(START, Join(words[..n]) + [' ']) == Reading(words[..n], "", false, Bare)
    ensures ReadAll(START, Join(words[..n]) + [' '] + Quoted(words[n])) == Reading(words[..n], words[n], true, Bare)
  {
    ReadSpace(words, n);
    ReadBoth(START, Join(words[..n]) + [' '], Quoted(words[n]));
    ReadQuoted(words[..n], words[n]);
  }

  lemma ReadSpace(words: seq<string>, n: nat)
    requires 0 < n <= |words|
    requires ReadAll(START, Join(words[..n])) == Reading(words[..n - 1], words[n - 1], true, Bare)
    ensures ReadAll(START, Join(words[..n]) + [' ']) == Reading(words[..n], "", false, Bare)
  {
    PrefixMore(words, n);
    ReadSpaceAfter(Join(words[..n]), words[..n - 1], words[n - 1]);
  }

  lemma PrefixMore(words: seq<string>, n: nat)
    requires 0 < n <= |words|
    ensures words[..n - 1] + [words[n - 1]] == words[..n]
  {
  }

  lemma ReadSpaceAfter(line: string, words: seq<string>, word: string)
    requires ReadAll(START, line) == Reading(words, word, true, Bare)
    ensures ReadAll(START, line + [' ']) == Reading(words + [word], "", false, Bare)
  {
    ReadBoth(START, line, [' ']);
    ReadOne(Reading(words, word, true, Bare), ' ');
  }

  // ---- A word with both kinds of quote is never read back -----------------------------------

  /** From here on the word being read can only grow, and the words before it stay. */
  lemma {:induction false} WordOnlyGrows(s: Reading, rest: string)
    requires s.inWord
    ensures var t := ReadAll(s, rest);
            if t.inWord && |t.words| == |s.words| then t.words == s.words && s.word <= t.word
            else |t.words| > |s.words| && t.words[..|s.words|] == s.words && s.word <= t.words[|s.words|]
  {
    if rest != "" {
      WordOnlyGrows(s, rest[..|rest| - 1]);
    }
  }

  /** Quotes read outside of quotes only: at least the first one isn't kept. */
  lemma {:induction false} OnlyQuotes(words: seq<string>, word: string, quotes: string)
    requires forall i :: 0 <= i < |quotes| ==> IsQuote(quotes[i])
    ensures var t := ReadAll(Reading(words, word, true, Bare), quotes);
            && t.words == words && t.inWord && word <= t.word && (t.quote.Within? ==> IsQuote(t.quote.open))
            && |t.word| <= |word| + (if quotes == "" then 0 else |quotes| - 1)
  {
    if quotes != "" {
      OnlyQuotes(words, word, quotes[..|quotes| - 1]);
    }
  }

  /** Where the first character that isn't a quote is. */
  function QuotePrefix(s: string): (n: nat)
    ensures n <= |s| && (forall i :: 0 <= i < n ==> IsQuote(s[i])) && (n < |s| ==> !IsQuote(s[n]))
  {
    if s != "" && IsQuote(s[0]) then 1 + QuotePrefix(s[1..]) else 0
  }

  function FirstSingle(word: string): (n: nat)
    requires '\'' in word
    ensures n < |word| && word[n] == '\'' && '\'' !in word[..n]
  {
    if word[0] == '\'' then 0 else 1 + FirstSingle(word[1..])
  }

  /** The word can't become the bad one: it ended too short, or has something else where that has
      a quote. */
  ghost predicate Missed(s: Reading, words: seq<string>, bad: string) {
    || (s.inWord && s.words == words && |s.word| > 0 && |s.word| <= |bad| && s.word[|s.word| - 1] != bad[|s.word| - 1])
    || (|s.words| > |words| && s.words[..|words|] == words && s.words[|words|] != bad)
  }

  lemma MissedForGood(s: Reading, words: seq<string>, bad: string, rest: string)
    requires Missed(s, words, bad)
    ensures var r := Finished(ReadAll(s, rest)); r.Ok? ==> |r.words| > |words| && r.words[|words|] != bad
  {
    if s.inWord && s.words == words {
      WordOnlyGrows(s, rest);
    } else {
      WordsStay(s, rest);
    }
  }

  lemma {:induction false} WordsStay(s: Reading, rest: string)
    ensures s.words <= ReadAll(s, rest).words
  {
    if rest != "" {
      WordsStay(s, rest[..|rest| - 1]);
    }
  }

  /** What is read after the first quote inside a bad word closed its quotes early: the rest of
      the word, a quote, and then nothing or a space. */
  ghost predicate Follows(rest: string, bad: string, n: nat) {
    && n < |bad| && |bad| - n <= |rest|
    && (forall i :: 0 <= i < |bad| - n - 1 ==> rest[i] == bad[n + 1 + i])
    && (|rest| > |bad| - n ==> rest[|bad| - n] == ' ')
  }

  /** The quotes at the start of the rest end within the word and its closing quote, and what was
      kept of them leaves the bad word with a quote where the next character goes. */
  lemma QuotesRunOut(words: seq<string>, bad: string, n: nat, rest: string)
    requires Follows(rest, bad, n) && bad[n] == '\''
    ensures var t := ReadAll(Reading(words, bad[..n], true, Bare), rest[..QuotePrefix(rest)]);
            && t.words == words && t.inWord && n <= |t.word| < |bad| && IsQuote(bad[|t.word|])
            && (t.quote.Within? ==> IsQuote(t.quote.open))
  {
    var k := QuotePrefix(rest);
    assert k <= |bad| - n;
    OnlyQuotes(words, bad[..n], rest[..k]);
    var t := ReadAll(Reading(words, bad[..n], true, Bare), rest[..k]);
    if |t.word| > n {
      assert bad[|t.word|] == rest[|t.word| - n - 1];
    }
  }

  lemma ClosedEarly(words: seq<string>, bad: string, n: nat, rest: string)
    requires Follows(rest, bad, n) && bad[n] == '\''
    ensures var r := Finished(ReadAll(Reading(words, bad[..n], true, Bare), rest));
            r.Ok? ==> |r.words| > |words| && r.words[|words|] != bad
  {
    var k, s := QuotePrefix(rest), Reading(words, bad[..n], true, Bare);
    QuotesRunOut(words, bad, n, rest);
    var t := ReadAll(s, rest[..k]);
    if k < |rest| {
      ReadNext(s, rest, k);
      MissesIt(t, words, bad, rest[k]);
      MissedForGood(Read(t, rest[k]), words, bad, rest[k + 1..]);
    } else {
      assert rest[..k] == rest;
    }
  }

  lemma MissesIt(t: Reading, words: seq<string>, bad: string, c: char)
    requires t.words == words && t.inWord && |t.word| < |bad| && IsQuote(bad[|t.word|]) && !IsQuote(c)
    requires t.quote.Within? ==> IsQuote(t.quote.open)
    ensures Missed(Read(t, c), words, bad)
  {
    var u := Read(t, c);
    if t.quote == Bare && IsSpace(c) {
      assert u.words[|words|] == t.word;
    } else {
      assert u.word[|u.word| - 1] == c;
    }
  }

  lemma ReadNext(s: Reading, line: string, k: nat)
    requires k < |line|
    ensures ReadAll(s, line) == ReadAll(Read(ReadAll(s, line[..k]), line[k]), line[k + 1..])
  {
    assert line == line[..k] + line[k..] && line[k..] == [line[k]] + line[k + 1..];
    ReadBoth(s, line[..k], line[k..]);
    ReadBoth(ReadAll(s, line[..k]), [line[k]], line[k + 1..]);
    ReadOne(ReadAll(s, line[..k]), line[k]);
  }

  /** Text in quotes, followed by more. */
  lemma ReadInQuotes(words: seq<string>, text: string, q: char, more: string)
    requires IsQuote(q) && q !in text
    ensures ReadAll(Reading(words, "", false, Bare), [q] + text + [q] + more) ==
            ReadAll(Reading(words, text, true, Bare), more)
  {
    var s := Reading(words, "", false, Bare);
    ReadBoth(s, [q] + text + [q], more);
    ReadBoth(s, [q] + text, [q]);
    ReadBoth(s, [q], text);
    ReadOne(s, q);
    ReadWithin(words, "", text, q);
    ReadOne(Reading(words, text, true, Within(q)), q);
    assert "" + text == text;
  }

  lemma FiveParts(a: string, b: string, c: string, d: string, e: string, f: string)
    ensures a + (b + c + d) + e + f == a + b + c + (d + e + f)
  {
  }

  lemma QuotedParts(bad: string, n: nat, tail: string)
    requires !Quotable(bad) && n < |bad| && bad[n] == '\''
    ensures Quoted(bad) + tail == ['\''] + bad[..n] + ['\''] + (bad[n + 1..] + ['\''] + tail)
  {
    assert !IsPlain(bad) by {
      var i :| 0 <= i < |bad| && bad[i] == '"';
    }
    assert bad == bad[..n] + ['\''] + bad[n + 1..];
    FiveParts(['\''], bad[..n], ['\''], bad[n + 1..], ['\''], tail);
  }

  /** A word that can't be quoted is read as something else. */
  lemma BadWordIsLost(words: seq<string>, bad: string, tail: string)
    requires !Quotable(bad) && (tail == "" || tail[0] == ' ')
    ensures var r := Finished(ReadAll(Reading(words, "", false, Bare), Quoted(bad) + tail));
            r.Ok? ==> |r.words| > |words| && r.words[|words|] != bad
  {
    var n := FirstSingle(bad);
    var rest := bad[n + 1..] + ['\''] + tail;
    QuotedParts(bad, n, tail);
    ReadInQuotes(words, bad[..n], '\'', rest);
    ClosedEarly(words, bad, n, rest);
  }

  lemma JoinMore(words: seq<string>)
    requires |words| > 1
    ensures Join(words) == Join(words[..|words| - 1]) + [' '] + Quoted(words[|words| - 1])
  {
  }

  /** What a line has after its first `n` words: nothing, or a space and the others. */
  lemma {:induction false} JoinedTail(words: seq<string>, n: nat) returns (tail: string)
    requires 0 < n <= |words|
    ensures Join(words) == Join(words[..n]) + tail && (tail == "" || tail[0] == ' ')
    decreases |words|
  {
    if n == |words| {
      tail := "";
      assert words[..n] == words;
    } else {
      var m := |words| - 1;
      tail := JoinedTail(words[..m], n);
      assert words[..m][..n] == words[..n];
      JoinMore(words);
      LongerTail(Join(words[..n]), tail, Quoted(words[m]));
      tail := tail + [' '] + Quoted(words[m]);
    }
  }

  lemma LongerTail(a: string, t: string, q: string)
    ensures a + t + [' '] + q == a + (t + [' '] + q)
    ensures t == "" || t[0] == ' ' ==> (t + [' '] + q)[0] == ' '
  {
  }

  function FirstBad(words: seq<string>): (n: nat)
    requires exists i :: 0 <= i < |words| && !Quotable(words[i])
    ensures n < |words| && !Quotable(words[n]) && forall i :: 0 <= i < n ==> Quotable(words[i])
  {
    if !Quotable(words[0]) then 0
    else
      assert exists i :: 0 <= i < |words[1..]| && !Quotable(words[1..][i]) by {
        var i :| 0 <= i < |words| && !Quotable(words[i]);
        assert words[1..][i - 1] == words[i];
      }
      var n := FirstBad(words[1..]);
      assert forall i :: 0 < i < n + 1 ==> words[i] == words[1..][i - 1];
      n + 1
  }

  lemma FirstWordIsLost(words: seq<string>)
    requires words != [] && !Quotable(words[0])
    ensures SplitOf(Join(words)) != Ok(words)
  {
    var tail := JoinedTail(words, 1);
    assert words[..1] == [words[0]];
    BadWordIsLost([], words[0], tail);
  }

  /** The line up to the n-th word, and from it on. */
  lemma JoinedAround(words: seq<string>, n: nat) returns (tail: string)
    requires 0 < n < |words|
    ensures Join(words) == Join(words[..n]) + [' '] + (Quoted(words[n]) + tail)
    ensures tail == "" || tail[0] == ' '
  {
    tail := JoinedTail(words, n + 1);
    JoinMore(words[..n + 1]);
    assert words[..n + 1][..n] == words[..n];
    Common.Joined(Join(words[..n]) + [' '], Quoted(words[n]), tail);
  }

  lemma LaterWordIsLost(words: seq<string>, n: nat)
    requires 0 < n < |words| && !Quotable(words[n]) && forall i :: 0 <= i < n ==> Quotable(words[i])
    ensures SplitOf(Join(words)) != Ok(words)
  {
    var tail := JoinedAround(words, n);
    var front := Join(words[..n]) + [' '];
    GoodWordsRead(words, n);
    ReadBoth(START, front, Quoted(words[n]) + tail);
    BadWordIsLost(words[..n], words[n], tail);
  }

  lemma GoodWordsRead(words: seq<string>, n: nat)
    requires 0 < n <= |words| && forall i :: 0 <= i < n ==> Quotable(words[i])
    ensures ReadAll(START, Join(words[..n]) + [' ']) == Reading(words[..n], "", false, Bare)
  {
    ReadJoined(words[..n]);
    assert words[..n][..n - 1] == words[..n - 1];
    ReadSpace(words, n);
  }

  lemma GoodWordsReturn(words: seq<string>)
    requires words != [] && forall i :: 0 <= i < |words| ==> Quotable(words[i])
    ensures SplitOf(Join(words)) == Ok(words)
  {
    ReadJoined(words);
    FinishedWithAll(words);
  }

  lemma FinishedWithAll(words: seq<string>)
    requires words != []
    ensures Finished(Reading(words[..|words| - 1], words[|words| - 1], true, Bare)) == Ok(words)
  {
    assert words[..|words| - 1] + [words[|words| - 1]] == words;
  }

  /** Splitting undoes joining exactly when there are words and none has both kinds of quote. */
  lemma SplitUndoesJoin(words: seq<string>)
    ensures SplitOf(Join(words)) == Ok(words) <==>
            words != [] && forall i :: 0 <= i < |words| ==> Quotable(words[i])
  {
    if words == [] {
    } else if forall i :: 0 <= i < |words| ==> Quotable(words[i]) {
      GoodWordsReturn(words);
    } else {
      var n := FirstBad(words);
      if n == 0 {
        FirstWordIsLost(words);
      } else {
        LaterWordIsLost(words, n);
      }
    }
  }

  /** For example: a word of a double quote between single ones is read as an open double quote. */
  lemma BothQuotesAreLost()
    ensures SplitOf(Join(["'\"'"])) == Err(Unclosed('"'))
  {
    var word := "'\"'";
    assert word[1] == '"';
    assert !IsPlain(word);
    assert Quoted(word) == "''\"''";
    var line := "''\"''";
    assert line[..4][..3] == line[..3] && line[..3][..2] == line[..2] && line[..2][..1] == line[..1];
    assert line[..1][..0] == "";
    assert ReadAll(START, line[..1]) == Reading([], "", true, Within('\''));
    assert ReadAll(START, line[..2]) == Reading([], "", true, Bare);
    assert ReadAll(START, line[..3]) == Reading([], "", true, Within('"'));
    assert ReadAll(START, line[..4]).quote == Within('"');
  }
}
