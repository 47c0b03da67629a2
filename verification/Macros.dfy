/** Recording what is typed as the steps of a macro, and typing it back. Text is a sequence of
    characters: each stands for one byte of what is sent. */
module Macros {
  import opened Common
  import opened SettingKinds

  datatype Step = Send(text: string) | Delay(ms: nat) | WaitFor(pattern: string)

  /** What happens at a terminal: a byte is typed, or nothing for a while. */
  datatype Event = Typed(byte: char) | Paused(ms: nat)

  // ---- Recording ----------------------------------------------------------------------------

  const PAUSE := 800
  const MAX_WAIT := 600_000

  /** Input and when it came, in milliseconds. */
  type Chunk = (int, string)

  /** The pause step for a gap: never longer than the gap, and less than 100 ms short of it unless
      it is cut at the longest wait. */
  function PauseFor(gap: int): (ms: nat)
    requires gap >= PAUSE
    ensures PAUSE <= ms <= MAX_WAIT && ms % 100 == 0 && ms <= gap && (gap < MAX_WAIT ==> gap < ms + 100)
  {
    var ms := gap / 100 * 100;
    if ms > MAX_WAIT then MAX_WAIT else ms
  }

  function Keys(text: string): (r: seq<Event>)
    ensures |r| == |text| && forall i :: 0 <= i < |r| ==> r[i] == Typed(text[i])
  {
    if text == "" then [] else Keys(text[..|text| - 1]) + [Typed(text[|text| - 1])]
  }

  /** A text with one character in place of another. */
  function Swapped(text: string, from: char, to: char): (r: string)
    ensures |r| == |text| && forall i :: 0 <= i < |r| ==> r[i] == if text[i] == from then to else text[i]
  {
    if text == "" then ""
    else
      var n := |text| - 1;
      Swapped(text[..n], from, to) + [if text[n] == from then to else text[n]]
  }

  /** What was done while recording: a pause before each chunk that came late, and its bytes. */
  function Done(typed: seq<Chunk>): seq<Event> {
    if typed == [] then []
    else
      var n := |typed| - 1;
      Done(typed[..n]) + PauseBefore(typed, n) + Keys(typed[n].1)
  }

  function PauseBefore(typed: seq<Chunk>, n: nat): seq<Event>
    requires n < |typed|
  {
    if n > 0 && typed[n].0 - typed[n - 1].0 >= PAUSE then [Paused(PauseFor(typed[n].0 - typed[n - 1].0))] else []
  }

  /** The same, with one byte in place of another. */
  function SwappedIn(events: seq<Event>, from: char, to: char): (r: seq<Event>)
    ensures |r| == |events|
    ensures forall i :: 0 <= i < |r| ==> r[i] == if events[i] == Typed(from) then Typed(to) else events[i]
  {
    if events == [] then []
    else
      var n := |events| - 1;
      SwappedIn(events[..n], from, to) + [if events[n] == Typed(from) then Typed(to) else events[n]]
  }

  /** What steps say. */
  function Said(steps: seq<Step>): seq<Event> {
    if steps == [] then []
    else
      var n := |steps| - 1;
      Said(steps[..n]) + SaidBy(steps[n])
  }

  function SaidBy(step: Step): seq<Event> {
    match step
    case Send(text) => Keys(text)
    case Delay(ms) => [Paused(ms)]
    case WaitFor(_) => []
  }

  lemma SaidMore(steps: seq<Step>, step: Step)
    ensures Said(steps + [step]) == Said(steps) + SaidBy(step)
  {
    assert (steps + [step])[..|steps|] == steps;
  }

  /** No step waits for output. */
  predicate NoWaits(steps: seq<Step>) { forall i :: 0 <= i < |steps| ==> !steps[i].WaitFor? }

  /** No step waits for output or types nothing, and no two in a row type. */
  predicate Tidy(steps: seq<Step>) {
    && NoWaits(steps)
    && (forall i :: 0 <= i < |steps| && steps[i].Send? ==> steps[i].text != "")
    && (forall i :: 0 < i < |steps| && steps[i].Send? ==> steps[i - 1].Delay?)
  }

  lemma KeysBoth(a: string, b: string)
    ensures Keys(a + b) == Keys(a) + Keys(b)
  {
  }

  lemma KeysSwapped(a: string, from: char, to: char)
    ensures Keys(Swapped(a, from, to)) == SwappedIn(Keys(a), from, to)
  {
  }

  lemma SwappedBoth(a: seq<Event>, b: seq<Event>, from: char, to: char)
    ensures SwappedIn(a + b, from, to) == SwappedIn(a, from, to) + SwappedIn(b, from, to)
  {
  }

  /** What the steps and the text not yet in them say. */
  function Collected(steps: seq<Step>, text: string): seq<Event> {
    Said(steps) + SwappedIn(Keys(text), '\r', '\n')
  }

  lemma CollectedMore(steps: seq<Step>, text: string, more: string)
    ensures Collected(steps, text + more) == Collected(steps, text) + SwappedIn(Keys(more), '\r', '\n')
  {
    KeysBoth(text, more);
    SwappedBoth(Keys(text), Keys(more), '\r', '\n');
    Joined(Said(steps), SwappedIn(Keys(text), '\r', '\n'), SwappedIn(Keys(more), '\r', '\n'));
  }

  lemma NothingMore(steps: seq<Step>)
    ensures Collected(steps, "") == Said(steps)
  {
  }

  /** Steps that more text can follow. */
  predicate Open(steps: seq<Step>) { Tidy(steps) && (steps != [] ==> steps[|steps| - 1].Delay?) }

  /** Adds the text typed so far as a step, Enter as a newline. */
  method Flush(text: string, steps: seq<Step>) returns (steps': seq<Step>)
    requires Open(steps)
    ensures Tidy(steps') && Said(steps') == Collected(steps, text)
  {
    steps' := steps;
    if text != "" {
      var typed := Swapped(text, '\r', '\n');
      steps' := steps + [Send(typed)];
      SendIsTidy(steps, typed);
      SendSays(steps, text);
    } else {
      NothingMore(steps);
    }
  }

  lemma SendIsTidy(steps: seq<Step>, text: string)
    requires Open(steps) && text != ""
    ensures Tidy(steps + [Send(text)])
  {
    var more := steps + [Send(text)];
    forall i | 0 < i < |more| && more[i].Send?
      ensures more[i - 1].Delay?
    {
      assert more[i - 1] == steps[i - 1];
      assert i < |steps| ==> more[i] == steps[i];
    }
  }

  lemma SendSays(steps: seq<Step>, text: string)
    ensures Said(steps + [Send(Swapped(text, '\r', '\n'))]) == Collected(steps, text)
  {
    KeysSwapped(text, '\r', '\n');
    SaidMore(steps, Send(Swapped(text, '\r', '\n')));
  }

  /** Where the typing paused: what was typed before, and the pause. */
  method Rest(typed: seq<Chunk>, i: nat, text: string, steps: seq<Step>) returns (text': string, steps': seq<Step>)
    requires Open(steps) && i < |typed|
    ensures Open(steps') && Collected(steps', text') == Collected(steps, text) + PauseBefore(typed, i)
  {
    if i == 0 || typed[i].0 - typed[i - 1].0 < PAUSE {
      assert Collected(steps, text) + [] == Collected(steps, text);
      return text, steps;
    }
    var pause := Delay(PauseFor(typed[i].0 - typed[i - 1].0));
    steps' := Flush(text, steps);
    SaidMore(steps', pause);
    text', steps' := "", steps' + [pause];
    NothingMore(steps');
  }

  /** The steps of a recording say exactly what was done, in the order it was done. */
  method StepsOf(typed: seq<Chunk>) returns (steps: seq<Step>)
    ensures RecordingOf(typed, steps) && Tidy(steps)
  {
    steps := [];
    var text := "";
    for i := 0 to |typed|
      invariant Open(steps) && Collected(steps, text) == SwappedIn(Done(typed[..i]), '\r', '\n')
    {
      text, steps := Rest(typed, i, text, steps);
      ChunkCollected(typed, i, steps, text);
      text := text + typed[i].1;
    }
    assert typed[..|typed|] == typed;
    steps := Flush(text, steps);
  }

  lemma ChunkCollected(typed: seq<Chunk>, i: nat, steps: seq<Step>, text: string)
    requires i < |typed|
    requires Collected(steps, text) == SwappedIn(Done(typed[..i]), '\r', '\n') + PauseBefore(typed, i)
    ensures Collected(steps, text + typed[i].1) == SwappedIn(Done(typed[..i + 1]), '\r', '\n')
  {
    DoneMore(typed, i);
    CollectedMore(steps, text, typed[i].1);
  }

  lemma DoneMore(typed: seq<Chunk>, i: nat)
    requires i < |typed|
    ensures SwappedIn(Done(typed[..i + 1]), '\r', '\n') ==
            SwappedIn(Done(typed[..i]), '\r', '\n') + PauseBefore(typed, i) + SwappedIn(Keys(typed[i].1), '\r', '\n')
  {
    DoneUpTo(typed, i);
    PauseStays(typed, i);
    SwappedThree(Done(typed[..i]), PauseBefore(typed, i), Keys(typed[i].1));
  }

  lemma DoneUpTo(typed: seq<Chunk>, i: nat)
    requires i < |typed|
    ensures Done(typed[..i + 1]) == Done(typed[..i]) + PauseBefore(typed, i) + Keys(typed[i].1)
  {
    var t := typed[..i + 1];
    assert t[..i] == typed[..i] && PauseBefore(t, i) == PauseBefore(typed, i);
  }

  lemma PauseStays(typed: seq<Chunk>, i: nat)
    requires i < |typed|
    ensures SwappedIn(PauseBefore(typed, i), '\r', '\n') == PauseBefore(typed, i)
  {
  }

  lemma SwappedThree(a: seq<Event>, b: seq<Event>, c: seq<Event>)
    ensures SwappedIn(a + b + c, '\r', '\n') ==
            SwappedIn(a, '\r', '\n') + SwappedIn(b, '\r', '\n') + SwappedIn(c, '\r', '\n')
  {
    SwappedBoth(a + b, c, '\r', '\n');
    SwappedBoth(a, b, '\r', '\n');
  }

  // ---- Snippet text -------------------------------------------------------------------------

  datatype Part = Text(text: string) | Variable(name: string) | Secret(name: string)

  predicate Pair(s: string, c: char, i: nat) { i + 1 < |s| && s[i] == c && s[i + 1] == c }

  /** Where `c` is first twice in a row, or the length of `s`. */
  function PairAt(s: string, c: char): (i: nat)
    ensures i <= |s| && (i < |s| ==> Pair(s, c, i)) && forall k :: 0 <= k < i ==> !Pair(s, c, k)
  {
    if |s| < 2 then |s|
    else if Pair(s, c, 0) then 0
    else
      assert forall k :: 0 < k <= |s| ==> (Pair(s, c, k) <==> Pair(s[1..], c, k - 1));
      1 + PairAt(s[1..], c)
  }

  function Plain(text: string): seq<Part> { if text == "" then [] else [Part.Text(text)] }

  /** What stands between `{{` and `}}`, if that is a variable or a secret. */
  function Inside(raw: string): Option<Part> {
    var inside := Trimmed(raw);
    var colon := Find(inside, ':');
    if colon < |inside| && Trimmed(inside[..colon]) == "secret" && Trimmed(inside[colon + 1..]) != ""
    then Some(Secret(Trimmed(inside[colon + 1..])))
    else if inside != "" && '{' !in inside && '\n' !in inside then Some(Variable(inside))
    else None
  }

  /** The next `{{...}}` of a text: the text before it, what it holds, and the rest. */
  datatype Cut = Whole | At(open: nat, raw: string, rest: string)

  function Next(s: string): (c: Cut)
    ensures c.At? ==> |c.rest| < |s| && c.open <= |s| - |c.rest| && c.rest == s[|s| - |c.rest|..]
  {
    var open := PairAt(s, '{');
    if open == |s| then Cut.Whole
    else
      var after := s[open + 2..];
      var close := PairAt(after, '}');
      if close == |after| then Cut.Whole else At(open, after[..close], after[close + 2..])
  }

  /** The pieces of `rest` after the plain text `plain`. */
  function Parts(plain: string, rest: string): seq<Part>
    decreases |rest|
  {
    var c := Next(rest);
    if c.Whole? then Plain(plain + rest)
    else
      match Inside(c.raw)
      case Some(part) => Plain(plain + rest[..c.open]) + [part] + Parts("", c.rest)
      case None => Parts(plain + rest[..|rest| - |c.rest|], c.rest)
  }

  method Parse(text: string) returns (parts: seq<Part>)
    ensures parts == Parts("", text)
  {
    parts := [];
    var plain, rest := "", text;
    while Next(rest).At?
      invariant parts + Parts(plain, rest) == Parts("", text)
      decreases |rest|
    {
      var c := Next(rest);
      var part := Inside(c.raw);
      if part.Some? {
        var text := Plain(plain + rest[..c.open]);
        Joined(parts, text + [part.value], Parts("", c.rest));
        Joined(parts, text, [part.value]);
        parts, plain := parts + text + [part.value], "";
      } else {
        plain := plain + rest[..|rest| - |c.rest|];
      }
      rest := c.rest;
    }
    parts := parts + Plain(plain + rest);
  }

  predicate AllText(parts: seq<Part>) { forall i :: 0 <= i < |parts| ==> parts[i].Text? }

  /** Text that asks for nothing is one piece: itself. */
  lemma {:induction false} AllTextIsPlain(plain: string, rest: string)
    requires AllText(Parts(plain, rest))
    ensures Parts(plain, rest) == Plain(plain + rest)
    decreases |rest|
  {
    var c := Next(rest);
    if c.At? && Inside(c.raw).None? {
      var taken := rest[..|rest| - |c.rest|];
      assert Parts(plain, rest) == Parts(plain + taken, c.rest);
      AllTextIsPlain(plain + taken, c.rest);
      assert plain + rest == plain + taken + c.rest;
    } else if c.At? {
      PartIsThere(plain, rest);
    }
  }

  lemma PartIsThere(plain: string, rest: string)
    requires Next(rest).At? && Inside(Next(rest).raw).Some?
    ensures !AllText(Parts(plain, rest))
  {
    var c := Next(rest);
    assert Parts(plain, rest)[|Plain(plain + rest[..c.open])|] == Inside(c.raw).value;
  }

  // ---- Typing -------------------------------------------------------------------------------

  datatype Typing = Bytes(bytes: string) | Missing(name: string)

  function PieceOf(part: Part, values: map<string, string>, secrets: map<string, string>): Option<string> {
    match part
    case Text(text) => Some(text)
    case Variable(name) => if name in values then Some(values[name]) else None
    case Secret(name) => if name in secrets then Some(secrets[name]) else None
  }

  function NameOfPart(part: Part): string { if part.Text? then part.text else part.name }

  /** The pieces in place of the parts, or the first part that has none. */
  function Filled(parts: seq<Part>, values: map<string, string>, secrets: map<string, string>): Typing {
    if parts == [] then Bytes("")
    else
      var piece := PieceOf(parts[0], values, secrets);
      var others := Filled(parts[1..], values, secrets);
      if piece.None? then Missing(NameOfPart(parts[0]))
      else if others.Missing? then others
      else Bytes(piece.value + others.bytes)
  }

  /** Newlines, and `\r\n`, as Enter. */
  function Enters(s: string): (r: string)
    ensures |r| <= |s| && '\n' !in r
  {
    if s == "" then ""
    else
      var n := |s| - 1;
      Enters(s[..n]) + (if s[n] != '\n' then [s[n]] else if n > 0 && s[n - 1] == '\r' then "" else "\r")
  }

  function EnterFor(s: string, c: char): string {
    if c != '\n' then [c] else if EndsInCr(s) then "" else "\r"
  }

  lemma EntersOne(s: string, c: char)
    ensures Enters(s + [c]) == Enters(s) + EnterFor(s, c)
  {
    assert (s + [c])[..|s|] == s;
  }

  predicate CutsEnter(a: string, b: string) { EndsInCr(a) && b != "" && b[0] == '\n' }

  function AfterCut(a: string, b: string): string { if CutsEnter(a, b) then b[1..] else b }

  /** Where it is cut makes no difference but inside a `\r\n`. */
  lemma {:induction false} EntersBoth(a: string, b: string)
    ensures Enters(a + b) == Enters(a) + Enters(AfterCut(a, b))
  {
    if b == "" {
      assert a + b == a;
    } else {
      var n, c := |b| - 1, b[|b| - 1];
      assert b == b[..n] + [c];
      Joined(a, b[..n], [c]);
      EntersOne(a + b[..n], c);
      if n == 0 {
        assert a + b[..0] == a;
        OneAfterCut(a, c);
      } else {
        EntersBoth(a, b[..n]);
        EntersBothMore(a, b[..n], c);
      }
    }
  }

  lemma EntersBothMore(a: string, b: string, c: char)
    requires b != "" && Enters(a + b) == Enters(a) + Enters(AfterCut(a, b))
    ensures Enters(a + b) + EnterFor(a + b, c) == Enters(a) + Enters(AfterCut(a, b + [c]))
  {
    AfterCutMore(a, b, c);
    EntersOne(AfterCut(a, b), c);
    Joined(Enters(a), Enters(AfterCut(a, b)), EnterFor(a + b, c));
  }

  lemma OneAfterCut(a: string, c: char)
    ensures Enters(AfterCut(a, [c])) == EnterFor(a, c)
  {
    EntersOne("", c);
    assert "" + [c] == [c];
  }

  lemma AfterCutMore(a: string, b: string, c: char)
    requires b != ""
    ensures AfterCut(a, b + [c]) == AfterCut(a, b) + [c] && EnterFor(a + b, c) == EnterFor(AfterCut(a, b), c)
  {
    assert (b + [c])[1..] == b[1..] + [c];
  }

  /** Without carriage returns, each newline is Enter and nothing else changes. */
  lemma {:induction false} EntersIsSwapped(s: string)
    requires '\r' !in s
    ensures Enters(s) == Swapped(s, '\n', '\r')
  {
    if s != "" {
      EntersIsSwapped(s[..|s| - 1]);
    }
  }

  function Concat(pieces: seq<string>): string {
    if pieces == [] then "" else Concat(pieces[..|pieces| - 1]) + pieces[|pieces| - 1]
  }

  function TypedOf(text: string, values: map<string, string>, secrets: map<string, string>): Typing {
    var filled := Filled(Parts("", text), values, secrets);
    if filled.Missing? then filled else Bytes(Enters(filled.bytes))
  }

  /** What typing a text sends. */
  method TypedBytes(text: string, values: map<string, string>, secrets: map<string, string>) returns (r: Typing)
    ensures r == TypedOf(text, values, secrets)
  {
    var parts := Parse(text);
    var pieces: seq<string> := [];
    for i := 0 to |parts|
      invariant Filled(parts, values, secrets) == Followed(Concat(pieces), Filled(parts[i..], values, secrets))
    {
      var piece := PieceOf(parts[i], values, secrets);
      assert parts[i..][1..] == parts[i + 1..];
      if piece.None? {
        return Missing(NameOfPart(parts[i]));
      }
      FollowedMore(Concat(pieces), piece.value, Filled(parts[i + 1..], values, secrets));
      assert (pieces + [piece.value])[..|pieces|] == pieces;
      pieces := pieces + [piece.value];
    }
    assert Concat(pieces) + "" == Concat(pieces);
    var bytes := FoldEnters(pieces);
    return Bytes(bytes);
  }

  function Followed(before: string, others: Typing): Typing {
    if others.Missing? then others else Bytes(before + others.bytes)
  }

  lemma FollowedMore(a: string, b: string, others: Typing)
    ensures Followed(a, Followed(b, others)) == Followed(a + b, others)
  {
    if others.Bytes? {
      assert a + (b + others.bytes) == a + b + others.bytes;
    }
  }

  /** Goes through the bytes of the pieces, one by one. */
  method FoldEnters(pieces: seq<string>) returns (bytes: string)
    ensures bytes == Enters(Concat(pieces))
  {
    bytes := "";
    var afterCr := false;
    for i := 0 to |pieces|
      invariant bytes == Enters(Concat(pieces[..i])) && afterCr == EndsInCr(Concat(pieces[..i]))
    {
      ghost var before := Concat(pieces[..i]);
      assert pieces[..i + 1][..i] == pieces[..i];
      assert before + pieces[i][..0] == before;
      for j := 0 to |pieces[i]|
        invariant bytes == Enters(before + pieces[i][..j]) && afterCr == EndsInCr(before + pieces[i][..j])
      {
        var byte := pieces[i][j];
        OneByte(before, pieces[i], j);
        if byte == '\n' {
          if !afterCr {
            bytes := bytes + "\r";
          }
        } else {
          bytes := bytes + [byte];
        }
        afterCr := byte == '\r';
      }
      assert pieces[i][..|pieces[i]|] == pieces[i];
    }
    assert pieces[..|pieces|] == pieces;
  }

  lemma OneByte(before: string, piece: string, j: nat)
    requires j < |piece|
    ensures var s := before + piece[..j];
            && Enters(before + piece[..j + 1]) == Enters(s) + EnterFor(s, piece[j])
            && EndsInCr(before + piece[..j + 1]) == (piece[j] == '\r')
  {
    var s := before + piece[..j];
    assert before + piece[..j + 1] == s + [piece[j]];
    EntersOne(s, piece[j]);
  }

  predicate EndsInCr(s: string) { s != "" && s[|s| - 1] == '\r' }

  // ---- Waiting for output -------------------------------------------------------------------

  const WAIT_BUFFER := 0x1_0000

  /** A pattern, ready to search: where in a text its first match ends. */
  type Finder = string -> Option<nat>

  function Found(find: Finder, text: string): (end: Option<nat>)
    ensures end.Some? ==> end.value <= |text|
  {
    match find(text)
    case Some(end) => Some(if end <= |text| then end else |text|)
    case None => None
  }

  /** The end of a text, as much as is kept. */
  function Last(text: string): (r: string)
    ensures |r| <= |text| && r == text[|text| - |r|..] && |r| == if |text| < WAIT_BUFFER then |text| else WAIT_BUFFER
  {
    if |text| > WAIT_BUFFER then text[|text| - WAIT_BUFFER..] else text
  }

  /** Where a run is in the pane's output: all that was printed since the last match, as far as it
      was read, and what will still come. */
  datatype Place = Place(since: string, ahead: seq<string>)

  function Printed(output: seq<string>): string {
    if output == [] then "" else output[0] + Printed(output[1..])
  }

  /** The output a place has before it. */
  function Remaining(p: Place): string { p.since + Printed(p.ahead) }

  function ReadMore(p: Place): Place
    requires p.ahead != []
  {
    Place(p.since + p.ahead[0], p.ahead[1..])
  }

  /** After a match that ends at `end` in what is kept. */
  function Behind(p: Place, end: nat): Place
    requires end <= |Last(p.since)|
  {
    Place(p.since[|p.since| - |Last(p.since)| + end..], p.ahead)
  }

  /** A wait: the place behind the match, if there is one in what will come in time. */
  function Waited(find: Finder, p: Place): Option<Place>
    decreases |p.ahead|
  {
    match Found(find, Last(p.since))
    case Some(end) => Some(Behind(p, end))
    case None => if p.ahead == [] then None else Waited(find, ReadMore(p))
  }

  /** The place after `n` more pieces of output. */
  function Ahead(p: Place, n: nat): Place
    requires n <= |p.ahead|
  {
    Place(p.since + Printed(p.ahead[..n]), p.ahead[n..])
  }

  predicate Matches(find: Finder, p: Place, n: nat)
    requires n <= |p.ahead|
  {
    Found(find, Last(Ahead(p, n).since)).Some?
  }

  lemma AheadOne(p: Place, n: nat)
    requires 0 < n <= |p.ahead|
    ensures Ahead(p, n) == Ahead(ReadMore(p), n - 1)
  {
    assert p.ahead[..n][0] == p.ahead[0] && p.ahead[..n][1..] == p.ahead[1..][..n - 1];
    assert p.since + (p.ahead[0] + Printed(p.ahead[1..][..n - 1])) ==
           p.since + p.ahead[0] + Printed(p.ahead[1..][..n - 1]);
  }

  /** A wait ends at the first piece of output after which there is a match in the last of what was
      printed since the one before, and stands behind that match; or there is none at any. */
  lemma {:induction false} WaitsForTheFirst(find: Finder, p: Place)
    ensures var r := Waited(find, p);
            && (r.None? ==> forall n :: 0 <= n <= |p.ahead| ==> !Matches(find, p, n))
            && (r.Some? ==>
                  exists n :: FirstMatch(find, p, n) && r.value == Behind(Ahead(p, n), Found(find, Last(Ahead(p, n).since)).value))
    decreases |p.ahead|
  {
    assert Ahead(p, 0) == p by {
      assert p.since + "" == p.since;
    }
    if Matches(find, p, 0) {
      assert FirstMatch(find, p, 0);
    } else if p.ahead != [] {
      WaitsForTheFirst(find, ReadMore(p));
      forall n | 0 < n <= |p.ahead|
        ensures Ahead(p, n) == Ahead(ReadMore(p), n - 1)
      {
        AheadOne(p, n);
      }
      LaterMatches(find, p);
    }
  }

  ghost predicate FirstMatch(find: Finder, p: Place, n: nat) {
    n <= |p.ahead| && Matches(find, p, n) && forall m :: 0 <= m < n ==> !Matches(find, p, m)
  }

  /** Matches after more output are those of the place where one piece was read. */
  lemma LaterMatches(find: Finder, p: Place)
    requires p.ahead != [] && !Matches(find, p, 0)
    ensures forall n :: 0 <= n < |p.ahead| ==> (FirstMatch(find, ReadMore(p), n) ==> FirstMatch(find, p, n + 1))
    ensures (forall n :: 0 <= n < |p.ahead| ==> !Matches(find, ReadMore(p), n)) ==>
            forall n :: 0 <= n <= |p.ahead| ==> !Matches(find, p, n)
  {
    forall n | 0 < n <= |p.ahead|
      ensures Matches(find, p, n) <==> Matches(find, ReadMore(p), n - 1)
    {
      AheadOne(p, n);
    }
  }

  /** The wait as the program does it: of the output it keeps only the last. */
  method Wait(find: Finder, buffer: string, output: seq<string>, ghost p: Place)
    returns (found: bool, seen: string, rest: seq<string>)
    requires buffer == Last(p.since) && output == p.ahead
    ensures found <==> Waited(find, p).Some?
    ensures found ==> seen == Last(Waited(find, p).value.since) && rest == Waited(find, p).value.ahead
  {
    seen, rest := buffer, output;
    ghost var now := p;
    while true
      invariant seen == Last(now.since) && rest == now.ahead && Waited(find, now) == Waited(find, p)
      decreases |rest|
    {
      var end := Found(find, seen);
      if end.Some? {
        BehindIsKept(now, end.value);
        seen := seen[end.value..];
        return true, seen, rest;
      }
      if rest == [] {
        return false, seen, rest;
      }
      KeepsTheLast(now.since, rest[0]);
      now := ReadMore(now);
      seen, rest := Last(seen + rest[0]), rest[1..];
    }
  }

  lemma BehindIsKept(p: Place, end: nat)
    requires end <= |Last(p.since)|
    ensures Last(p.since)[end..] == Last(Behind(p, end).since)
  {
    var cut := |p.since| - |Last(p.since)|;
    assert p.since[cut + end..] == p.since[cut..][end..];
  }

  /** Dropping early drops nothing that would be kept. */
  lemma KeepsTheLast(text: string, more: string)
    ensures Last(Last(text) + more) == Last(text + more)
  {
    var cut := |text| - |Last(text)|;
    assert text + more == text[..cut] + (Last(text) + more);
    LastOfLonger(text[..cut], Last(text) + more);
  }

  lemma LastOfLonger(early: string, text: string)
    requires |text| >= WAIT_BUFFER || early == ""
    ensures Last(early + text) == Last(text)
  {
    if early == "" {
      assert early + text == text;
    }
  }

  ghost predicate IsSuffix(a: string, b: string) { |a| <= |b| && a == b[|b| - |a|..] }

  lemma BehindIsForward(p: Place, end: nat)
    requires end <= |Last(p.since)|
    ensures IsSuffix(Remaining(Behind(p, end)), Remaining(p))
  {
    var cut := |p.since| - |Last(p.since)| + end;
    assert Remaining(p)[cut..] == Remaining(Behind(p, end));
  }

  /** A wait only goes forward: no output is matched twice. */
  lemma {:induction false} WaitsGoForward(find: Finder, p: Place)
    ensures Waited(find, p).Some? ==> IsSuffix(Remaining(Waited(find, p).value), Remaining(p))
    decreases |p.ahead|
  {
    var end := Found(find, Last(p.since));
    if end.Some? {
      BehindIsForward(p, end.value);
    } else if p.ahead != [] {
      WaitsGoForward(find, ReadMore(p));
      ReadingKeeps(p);
    }
  }

  lemma SuffixComposes(a: string, b: string, c: string)
    requires IsSuffix(a, b) && IsSuffix(b, c)
    ensures IsSuffix(a, c)
  {
    assert a == c[|c| - |a|..];
  }

  /** A wait that looks at all that was printed since the last match. */
  function WaitedOnAll(find: Finder, p: Place): Option<Place>
    decreases |p.ahead|
  {
    match Found(find, p.since)
    case Some(end) => Some(Place(p.since[end..], p.ahead))
    case None => if p.ahead == [] then None else WaitedOnAll(find, ReadMore(p))
  }

  lemma ReadingKeeps(p: Place)
    requires p.ahead != []
    ensures Remaining(ReadMore(p)) == Remaining(p)
  {
    assert p.since + p.ahead[0] + Printed(p.ahead[1..]) == p.since + (p.ahead[0] + Printed(p.ahead[1..]));
  }

  lemma {:induction false} ShortOutputIsKept(find: Finder, p: Place)
    requires |Remaining(p)| <= WAIT_BUFFER
    ensures Waited(find, p) == WaitedOnAll(find, p)
    decreases |p.ahead|
  {
    if p.ahead != [] {
      ReadingKeeps(p);
      ShortOutputIsKept(find, ReadMore(p));
    }
  }

  /** Finds any text that is longer than what is kept. */
  function Long(text: string): Option<nat> { if |text| > WAIT_BUFFER then Some(0) else None }

  lemma {:induction false} LongOutputIsNotKept(p: Place)
    requires |Remaining(p)| > WAIT_BUFFER
    ensures Waited(Long, p).None? && WaitedOnAll(Long, p).Some?
    decreases |p.ahead|
  {
    if p.ahead != [] {
      ReadingKeeps(p);
      if |p.since| <= WAIT_BUFFER {
        LongOutputIsNotKept(ReadMore(p));
      } else {
        LongIsNeverFound(p);
      }
    }
  }

  lemma {:induction false} LongIsNeverFound(p: Place)
    ensures Waited(Long, p).None?
    decreases |p.ahead|
  {
    if p.ahead != [] {
      LongIsNeverFound(ReadMore(p));
    }
  }

  /** Exactly when waits for whatever pattern are as if they looked at all that was printed since the
      last match: when all there will be is not more than is kept. */
  lemma WaitsLookAtAll(p: Place)
    ensures (forall find: Finder :: Waited(find, p) == WaitedOnAll(find, p)) <==> |Remaining(p)| <= WAIT_BUFFER
  {
    if |Remaining(p)| <= WAIT_BUFFER {
      forall find: Finder ensures Waited(find, p) == WaitedOnAll(find, p) {
        ShortOutputIsKept(find, p);
      }
    } else {
      LongOutputIsNotKept(p);
      assert Waited(Long, p) != WaitedOnAll(Long, p);
    }
  }

  // ---- Playing back -------------------------------------------------------------------------

  /** What a run is given: values and secrets to fill in, the patterns that can be searched for, the
      output that comes before a wait gives up, and whether the pane is gone then. */
  datatype Given = Given(
    values: map<string, string>, secrets: map<string, string>, patterns: map<string, Finder>,
    output: seq<string>, closed: bool)

  datatype Why = NoValue(name: string) | TimedOut(pattern: string) | Gone

  datatype Playback = Played(events: seq<Event>, place: Place) | Stopped(events: seq<Event>, why: Why)

  function PlayedOf(steps: seq<Step>, g: Given): Playback {
    if steps == [] then Played([], Place("", g.output))
    else
      var n := |steps| - 1;
      AfterStep(PlayedOf(steps[..n], g), steps[n], g)
  }

  function AfterStep(before: Playback, step: Step, g: Given): Playback {
    if before.Stopped? then before
    else
      match step
      case Delay(ms) => Played(before.events + [Paused(ms)], before.place)
      case Send(text) => (
        match TypedOf(text, g.values, g.secrets)
        case Missing(name) => Stopped(before.events, NoValue(name))
        case Bytes(bytes) => Played(before.events + Keys(bytes), before.place))
      case WaitFor(pattern) =>
        if pattern !in g.patterns then Stopped(before.events, TimedOut(pattern))
        else
          match Waited(g.patterns[pattern], before.place)
          case Some(place) => Played(before.events, place)
          case None => Stopped(before.events, if g.closed then Gone else TimedOut(pattern))
  }

  /** Over a whole run: each wait looks only at output behind the match of the one before. */
  lemma {:induction false} RunGoesForward(steps: seq<Step>, g: Given)
    ensures PlayedOf(steps, g).Played? ==> IsSuffix(Remaining(PlayedOf(steps, g).place), Printed(g.output))
  {
    if steps == [] {
      assert "" + Printed(g.output) == Printed(g.output);
    } else {
      var n := |steps| - 1;
      var before, step := PlayedOf(steps[..n], g), steps[n];
      RunGoesForward(steps[..n], g);
      if PlayedOf(steps, g).Played? && step.WaitFor? {
        WaitsGoForward(g.patterns[step.pattern], before.place);
        SuffixComposes(Remaining(PlayedOf(steps, g).place), Remaining(before.place), Printed(g.output));
      }
    }
  }

  /** Does one step, with the output read and not read so far. */
  method DoStep(step: Step, g: Given, before: seq<Event>, buffer: string, output: seq<string>, ghost p: Place)
    returns (events: seq<Event>, stopped: Option<Why>, seen: string, rest: seq<string>)
    requires buffer == Last(p.since) && output == p.ahead
    ensures match AfterStep(Played(before, p), step, g)
            case Played(all, place) =>
              events == all && stopped == None && seen == Last(place.since) && rest == place.ahead
            case Stopped(all, why) => events == all && stopped == Some(why)
  {
    events, stopped, seen, rest := before, None, buffer, output;
    match step
    case Delay(ms) => events := before + [Paused(ms)];
    case Send(text) =>
      var typing := TypedBytes(text, g.values, g.secrets);
      if typing.Missing? {
        stopped := Some(NoValue(typing.name));
      } else {
        events := before + Keys(typing.bytes);
      }
    case WaitFor(pattern) =>
      if pattern !in g.patterns {
        stopped := Some(TimedOut(pattern));
        return;
      }
      var found;
      found, seen, rest := Wait(g.patterns[pattern], buffer, output, p);
      if !found {
        stopped := Some(if g.closed then Gone else TimedOut(pattern));
      }
  }

  /** Does the steps one by one, until one can't be done. */
  method Play(steps: seq<Step>, g: Given) returns (events: seq<Event>, stopped: Option<Why>)
    ensures match PlayedOf(steps, g)
            case Played(all, _) => events == all && stopped == None
            case Stopped(all, why) => events == all && stopped == Some(why)
  {
    events, stopped := [], None;
    var seen, rest := "", g.output;
    ghost var place := Place("", g.output);
    for i := 0 to |steps|
      invariant PlayedOf(steps[..i], g) == Played(events, place) && stopped == None
      invariant seen == Last(place.since) && rest == place.ahead
    {
      assert steps[..i + 1][..i] == steps[..i];
      events, stopped, seen, rest := DoStep(steps[i], g, events, seen, rest, place);
      if stopped.Some? {
        StoppedStays(steps, i + 1, g);
        return;
      }
      place := PlayedOf(steps[..i + 1], g).place;
    }
    assert steps[..|steps|] == steps;
  }

  lemma {:induction false} StoppedStays(steps: seq<Step>, i: nat, g: Given)
    requires i <= |steps| && PlayedOf(steps[..i], g).Stopped?
    ensures PlayedOf(steps, g) == PlayedOf(steps[..i], g)
  {
    if i < |steps| {
      var n := |steps| - 1;
      assert steps[..n][..i] == steps[..i];
      StoppedStays(steps[..n], i, g);
      assert PlayedOf(steps, g) == AfterStep(PlayedOf(steps[..n], g), steps[n], g);
    } else {
      assert steps[..i] == steps;
    }
  }

  lemma {:induction false} FilledWithNothing(parts: seq<Part>)
    ensures Filled(parts, map[], map[]).Bytes? <==> AllText(parts)
  {
    if parts != [] {
      FilledWithNothing(parts[1..]);
      assert AllText(parts) <==> parts[0].Text? && AllText(parts[1..]) by {
        assert parts == [parts[0]] + parts[1..];
      }
    }
  }

  lemma PlainIsFilled(text: string, values: map<string, string>, secrets: map<string, string>)
    ensures Filled(Plain(text), values, secrets) == Bytes(text)
  {
    if text != "" {
      assert Plain(text)[1..] == [];
      assert text + "" == text;
    }
  }

  /** Text that asks for nothing, with newlines for Enter, is typed as Enter. */
  lemma TypedPlain(text: string, values: map<string, string>, secrets: map<string, string>)
    requires IsPlain(text) && '\r' !in text
    ensures TypedOf(text, values, secrets) == Bytes(Swapped(text, '\n', '\r'))
  {
    AllTextIsPlain("", text);
    assert "" + text == text;
    PlainIsFilled(text, values, secrets);
    EntersIsSwapped(text);
  }

  /** Every text of these steps is typed as it is. */
  predicate AsksNothing(steps: seq<Step>) {
    forall i :: 0 <= i < |steps| && steps[i].Send? ==> IsPlain(steps[i].text)
  }

  predicate IsPlain(text: string) { AllText(Parts("", text)) }

  lemma PlainSend(before: seq<Event>, p: Place, text: string, g: Given)
    requires IsPlain(text) && '\r' !in text
    ensures AfterStep(Played(before, p), Send(text), g) ==
            Played(before + SwappedIn(Keys(text), '\n', '\r'), p)
  {
    TypedPlain(text, g.values, g.secrets);
    KeysSwapped(text, '\n', '\r');
  }

  lemma PlainStep(before: seq<Event>, p: Place, step: Step, g: Given)
    requires !step.WaitFor? && (step.Send? ==> IsPlain(step.text)) && Typed('\r') !in before + SaidBy(step)
    ensures AfterStep(Played(SwappedIn(before, '\n', '\r'), p), step, g) ==
            Played(SwappedIn(before + SaidBy(step), '\n', '\r'), p)
  {
    SwappedBoth(before, SaidBy(step), '\n', '\r');
    match step
    case Delay(ms) =>
      assert SwappedIn([Paused(ms)], '\n', '\r') == [Paused(ms)];
    case Send(text) =>
      NoReturnIn(before, text);
      PlainSend(SwappedIn(before, '\n', '\r'), p, text, g);
  }

  lemma {:induction false} PlainIsPlayed(steps: seq<Step>, g: Given)
    requires AsksNothing(steps) && NoWaits(steps) && Typed('\r') !in Said(steps)
    ensures PlayedOf(steps, g) == Played(SwappedIn(Said(steps), '\n', '\r'), Place("", g.output))
  {
    if steps != [] {
      var n := |steps| - 1;
      AsksMore(steps);
      PlainIsPlayed(steps[..n], g);
      PlainStep(Said(steps[..n]), Place("", g.output), steps[n], g);
    }
  }

  lemma NoReturnIn(before: seq<Event>, text: string)
    requires Typed('\r') !in before + Keys(text)
    ensures '\r' !in text
  {
    forall i | 0 <= i < |text|
      ensures text[i] != '\r'
    {
      assert (before + Keys(text))[|before| + i] == Typed(text[i]);
    }
  }

  lemma TypedWithNothing(text: string)
    ensures TypedOf(text, map[], map[]).Bytes? <==> IsPlain(text)
  {
    FilledWithNothing(Parts("", text));
  }

  lemma StepAsks(before: Playback, step: Step, g: Given)
    requires FillsNothing(g)
    ensures AfterStep(before, step, g).Played? ==> before.Played? && (step.Send? ==> IsPlain(step.text))
  {
    if step.Send? {
      TypedWithNothing(step.text);
    }
  }

  lemma AsksMore(steps: seq<Step>)
    requires steps != []
    ensures var n := |steps| - 1;
            AsksNothing(steps) <==> AsksNothing(steps[..n]) && (steps[n].Send? ==> IsPlain(steps[n].text))
  {
    var n := |steps| - 1;
    if AsksNothing(steps[..n]) {
      forall i | 0 <= i < n && steps[i].Send?
        ensures IsPlain(steps[i].text)
      {
        assert steps[..n][i] == steps[i];
      }
    }
  }

  lemma {:induction false} AskingStops(steps: seq<Step>, g: Given)
    requires FillsNothing(g)
    ensures PlayedOf(steps, g).Played? ==> AsksNothing(steps)
  {
    if steps != [] {
      var n := |steps| - 1;
      AskingStops(steps[..n], g);
      StepAsks(PlayedOf(steps[..n], g), steps[n], g);
      AsksMore(steps);
    }
  }

  lemma SwappedAgain(events: seq<Event>)
    ensures Typed('\r') !in SwappedIn(events, '\r', '\n')
    ensures SwappedIn(SwappedIn(events, '\r', '\n'), '\n', '\r') == SwappedIn(events, '\n', '\r')
  {
  }

  /** The steps are those of the recording: see StepsOf. */
  predicate RecordingOf(typed: seq<Chunk>, steps: seq<Step>) {
    Said(steps) == SwappedIn(Done(typed), '\r', '\n') && NoWaits(steps)
  }

  /** Playing it types what was typed, every line end as Enter and with its pauses. */
  predicate TypesBack(typed: seq<Chunk>, steps: seq<Step>, g: Given) {
    PlayedOf(steps, g) == Played(SwappedIn(Done(typed), '\n', '\r'), Place("", g.output))
  }

  predicate FillsNothing(g: Given) { g.values == map[] && g.secrets == map[] }

  /** With nothing to fill in, a recording types back what was typed exactly if no text of it reads
      as asking for something. */
  lemma RecordingTypesBack(typed: seq<Chunk>, steps: seq<Step>, g: Given)
    requires RecordingOf(typed, steps) && FillsNothing(g)
    ensures TypesBack(typed, steps, g) <==> AsksNothing(steps)
  {
    AskingStops(steps, g);
    SwappedAgain(Done(typed));
    if AsksNothing(steps) {
      PlainIsPlayed(steps, g);
    }
  }

  /** Whatever is filled in and whatever the pane prints, exactly such a recording is typed back. */
  lemma TypedBackWhateverIsFilledIn(typed: seq<Chunk>, steps: seq<Step>)
    requires RecordingOf(typed, steps)
    ensures (forall g :: TypesBack(typed, steps, g)) <==> AsksNothing(steps)
  {
    var nothing := Given(map[], map[], map[], [], false);
    RecordingTypesBack(typed, steps, nothing);
    SwappedAgain(Done(typed));
    if AsksNothing(steps) {
      forall g ensures TypesBack(typed, steps, g) {
        PlainIsPlayed(steps, g);
      }
    } else {
      assert !TypesBack(typed, steps, nothing);
    }
  }

  /** For example, `{{a}}` was typed: playing it back stops, for want of a value. */
  lemma BracesAreNotTypedBack(g: Given)
    requires FillsNothing(g)
    ensures var typed, steps := [(0, "{{a}}")], [Send("{{a}}")];
            && RecordingOf(typed, steps)
            && PlayedOf(steps, g) == Stopped([], NoValue("a"))
  {
    assert [Send("{{a}}")][..0] == [];
    SoloRecording("{{a}}");
    BracesAskForA();
  }

  lemma SoloRecording(text: string)
    requires '\r' !in text
    ensures RecordingOf([(0, text)], [Send(text)])
  {
    var typed, steps := [(0, text)], [Send(text)];
    assert steps[..0] == [] && typed[..0] == [];
    assert SwappedIn(Keys(text), '\r', '\n') == Keys(text);
    assert Done(typed) == Keys(text) by {
      assert Done(typed[..0]) == [] && PauseBefore(typed, 0) == [];
      assert [] + [] + Keys(text) == Keys(text);
    }
    assert Said(steps) == Keys(text) by {
      assert Said(steps[..0]) == [] && SaidBy(steps[0]) == Keys(text);
      assert [] + Keys(text) == Keys(text);
    }
  }

  lemma BracesAskForA()
    ensures TypedOf("{{a}}", map[], map[]) == Missing("a")
  {
    assert Pair("{{a}}", '{', 0);
    assert "{{a}}"[2..] == "a}}" && Pair("a}}", '}', 1) && !Pair("a}}", '}', 0);
    assert "a}}"[..1] == "a" && "a}}"[3..] == "";
    assert Trimmed("a") == "a" && Find("a", ':') == 1;
    assert Inside("a") == Some(Variable("a"));
    assert "" + "{{a}}"[..0] == "";
    assert Parts("", "{{a}}")[0] == Variable("a");
  }

  predicate BracesAt(events: seq<Event>, i: nat) {
    i + 1 < |events| && events[i] == Typed('{') && events[i + 1] == Typed('{')
  }

  /** No two `{` were typed one right after the other. */
  predicate NoBraces(events: seq<Event>) { forall i :: 0 <= i < |events| ==> !BracesAt(events, i) }

  lemma NoBracesSwapped(events: seq<Event>)
    requires NoBraces(events)
    ensures NoBraces(SwappedIn(events, '\r', '\n'))
  {
    var s := SwappedIn(events, '\r', '\n');
    assert forall i :: 0 <= i < |s| ==> (BracesAt(s, i) <==> BracesAt(events, i));
  }

  lemma {:induction false} NoBracesAskNothing(steps: seq<Step>)
    requires NoBraces(Said(steps))
    ensures AsksNothing(steps)
  {
    if steps != [] {
      var n := |steps| - 1;
      NoBracesBefore(Said(steps[..n]), Said(steps)[|Said(steps[..n])|..]);
      NoBracesAskNothing(steps[..n]);
      if steps[n].Send? {
        NoPairIn(Said(steps[..n]), steps[n].text);
      }
      AsksMore(steps);
    }
  }

  lemma NoBracesBefore(a: seq<Event>, b: seq<Event>)
    requires NoBraces(a + b)
    ensures NoBraces(a)
  {
    assert forall i :: 0 <= i < |a| && BracesAt(a, i) ==> BracesAt(a + b, i);
  }

  lemma NoPairIn(before: seq<Event>, text: string)
    requires NoBraces(before + Keys(text))
    ensures IsPlain(text)
  {
    if PairAt(text, '{') < |text| {
      PairShows(before, text);
    }
    assert Next(text).Whole?;
  }

  lemma PairShows(before: seq<Event>, text: string)
    requires PairAt(text, '{') < |text|
    ensures !NoBraces(before + Keys(text))
  {
    assert BracesAt(before + Keys(text), |before| + PairAt(text, '{'));
  }

  /** Whatever the values and secrets, a recording without `{{` types back what was typed. */
  lemma WithoutBracesTypesBack(typed: seq<Chunk>, steps: seq<Step>, g: Given)
    requires RecordingOf(typed, steps) && NoBraces(Done(typed))
    ensures TypesBack(typed, steps, g)
  {
    SwappedAgain(Done(typed));
    NoBracesSwapped(Done(typed));
    NoBracesAskNothing(steps);
    PlainIsPlayed(steps, g);
  }
}
