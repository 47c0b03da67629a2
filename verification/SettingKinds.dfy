/** The kinds of settings: what a value of the file means for each, and how it is written back. */
module SettingKinds {
  import opened Common
  import CommandLine

  /** A floating-point number; the arithmetic of rounding plays no part here. */
  datatype Number = Finite(value: real) | NotFinite

  datatype Value =
    | Text(text: string)
    | Integer(n: int)
    | Float(x: Number)
    | Boolean(b: bool)
    | Datetime(d: nat)
    | Array(items: seq<Value>)
    | Table(table: map<string, Value>)

  datatype Color = Color(r: nat, g: nat, b: nat, alpha: nat)

  datatype Kind =
    | Flag(flag: bool)
    | Free
    | LanguageCode
    | ProfileId
    | Choice(texts: seq<string>)
    | Accent
    | Scale
    | Whole(least: nat, most: nat, usual: nat)
    | Words(known: seq<string>, needed: bool, chosen: seq<string>)

  datatype Setting =
    | OfFlag(flag: bool)
    | OfText(text: string)
    | OfChoice(choice: nat)
    | OfAccent(color: Option<Color>)
    | OfScale(scale: Number)
    | OfWhole(number: nat)
    | OfWords(words: seq<string>)

  // ---- Texts --------------------------------------------------------------------------------

  predicate IsLower(c: char) { 'a' <= c <= 'z' }
  predicate IsUpper(c: char) { 'A' <= c <= 'Z' }
  predicate IsDigit(c: char) { '0' <= c <= '9' }

  /** A language: two or three letters, and perhaps a region. */
  predicate ValidLanguage(code: string) {
    var i := Find(code, '_');
    if code == "system" || code == "pseudo" then true
    else if i == |code| then 2 <= |code| <= 3 && forall k :: 0 <= k < |code| ==> IsLower(code[k])
    else
      && 2 <= i <= 3 && (forall k :: 0 <= k < i ==> IsLower(code[k]))
      && |code| == i + 3 && IsUpper(code[i + 1]) && IsUpper(code[i + 2])
  }

  predicate ValidId(id: string) {
    && 0 < |id| <= 64 && (IsLower(id[0]) || IsDigit(id[0]))
    && forall k :: 0 <= k < |id| ==> IsLower(id[k]) || IsDigit(id[k]) || id[k] in "-_."
  }

  /** Where `x` is first in `s`, or the length of `s`. */
  function Find<T(==)>(s: seq<T>, x: T): (i: nat)
    ensures i <= |s| && (i < |s| ==> s[i] == x) && forall k :: 0 <= k < i ==> s[k] != x
  {
    if s == [] || s[0] == x then 0 else 1 + Find(s[1..], x)
  }

  predicate Distinct<T(==)>(s: seq<T>) { forall i, j :: 0 <= i < j < |s| ==> s[i] != s[j] }

  function Trimmed(s: string): (r: string)
    ensures |r| <= |s|
    ensures r != "" ==> !CommandLine.IsSpace(r[0]) && !CommandLine.IsSpace(r[|r| - 1])
    decreases |s|
  {
    if s == "" then s
    else if CommandLine.IsSpace(s[0]) then Trimmed(s[1..])
    else if CommandLine.IsSpace(s[|s| - 1]) then Trimmed(s[..|s| - 1])
    else s
  }

  function TrimmedAll(items: seq<Value>): (r: Option<seq<string>>)
    ensures r.Some? <==> forall k :: 0 <= k < |items| ==> items[k].Text?
    ensures r.Some? ==> |r.value| == |items| &&
                        forall k :: 0 <= k < |items| ==> r.value[k] == Trimmed(items[k].text)
  {
    if items == [] then Some([])
    else
      var n := |items| - 1;
      var before := TrimmedAll(items[..n]);
      if before.Some? && items[n].Text? then Some(before.value + [Trimmed(items[n].text)]) else None
  }

  /** A list of known words, none of them twice. */
  predicate ValidWords(known: seq<string>, needed: bool, words: seq<string>) {
    && (needed ==> words != []) && Distinct(words)
    && forall k :: 0 <= k < |words| ==> words[k] in known
  }

  // ---- Colors -------------------------------------------------------------------------------

  const DIGITS := "0123456789ABCDEF"

  function HexDigit(n: nat): char
    requires n < 16
  {
    DIGITS[n]
  }

  function DigitValue(c: char): Option<nat> {
    if '0' <= c <= '9' then Some((c - '0') as nat)
    else if 'A' <= c <= 'F' then Some((c - 'A') as nat + 10)
    else if 'a' <= c <= 'f' then Some((c - 'a') as nat + 10)
    else None
  }

  predicate InBytes(c: Color) { c.r < 256 && c.g < 256 && c.b < 256 && c.alpha < 256 }

  /** The text of a color, without its alpha. */
  function ToHex(c: Color): string
    requires InBytes(c)
  {
    ['#', HexDigit(c.r / 16), HexDigit(c.r % 16), HexDigit(c.g / 16), HexDigit(c.g % 16),
     HexDigit(c.b / 16), HexDigit(c.b % 16)]
  }

  function Channel(a: char, b: char): Option<nat> {
    var x, y := DigitValue(a), DigitValue(b);
    if x.Some? && y.Some? then Some(16 * x.value + y.value) else None
  }

  function FromHex(text: string): Option<Color> {
    if |text| != 7 || text[0] != '#' then None
    else
      var r, g, b := Channel(text[1], text[2]), Channel(text[3], text[4]), Channel(text[5], text[6]);
      if r.Some? && g.Some? && b.Some? then Some(Color(r.value, g.value, b.value, 255)) else None
  }

  lemma ChannelRoundTrips(n: nat)
    requires n < 256
    ensures Channel(HexDigit(n / 16), HexDigit(n % 16)) == Some(n)
  {
    DigitRoundTrips(n / 16);
    DigitRoundTrips(n % 16);
  }

  lemma DigitRoundTrips(n: nat)
    requires n < 16
    ensures DigitValue(HexDigit(n)) == Some(n)
  {
  }

  /** A color is read back from its text, opaque. */
  lemma ColorRoundTrips(c: Color)
    requires InBytes(c)
    ensures FromHex(ToHex(c)) == Some(c.(alpha := 255))
  {
    ChannelRoundTrips(c.r);
    ChannelRoundTrips(c.g);
    ChannelRoundTrips(c.b);
  }

  lemma ColorIsValid(text: string)
    ensures FromHex(text).Some? ==> InBytes(FromHex(text).value) && FromHex(text).value.alpha == 255
  {
  }

  // ---- Reading and writing one value --------------------------------------------------------

  function ReadAccent(text: string): Option<Setting> {
    if text == "default" then Some(OfAccent(None))
    else
      var c := FromHex(text);
      if c.Some? then Some(OfAccent(Some(c.value))) else None
  }

  function ScaleOf(v: Value): Option<Number> {
    match v
    case Float(x) => Some(x)
    case Integer(n) => Some(Finite(n as real))
    case _ => None
  }

  predicate ValidScale(x: Number) { x.Finite? && 0.8 <= x.value <= 1.5 }

  /** What a value of the file means; None if it is of no use. */
  function Read(kind: Kind, v: Value): Option<Setting> {
    match kind
    case Flag(_) => if v.Boolean? then Some(OfFlag(v.b)) else None
    case Free => if v.Text? then Some(OfText(v.text)) else None
    case LanguageCode => if v.Text? && ValidLanguage(v.text) then Some(OfText(v.text)) else None
    case ProfileId => if v.Text? && ValidId(v.text) then Some(OfText(v.text)) else None
    case Choice(texts) =>
      if v.Text? && Find(texts, v.text) < |texts| then Some(OfChoice(Find(texts, v.text))) else None
    case Accent => if v.Text? then ReadAccent(v.text) else None
    case Scale =>
      var x := ScaleOf(v);
      if x.Some? && ValidScale(x.value) then Some(OfScale(x.value)) else None
    case Whole(least, most, _) => if v.Integer? && least <= v.n <= most then Some(OfWhole(v.n)) else None
    case Words(known, needed, _) =>
      if !v.Array? then None
      else
        var words := TrimmedAll(v.items);
        if words.Some? && ValidWords(known, needed, words.value) then Some(OfWords(words.value)) else None
  }

  function DefaultOf(kind: Kind): Setting {
    match kind
    case Flag(flag) => OfFlag(flag)
    case Free => OfText("")
    case LanguageCode => OfText("system")
    case ProfileId => OfText("default")
    case Choice(_) => OfChoice(0)
    case Accent => OfAccent(None)
    case Scale => OfScale(Finite(1.0))
    case Whole(_, _, usual) => OfWhole(usual)
    case Words(_, _, chosen) => OfWords(chosen)
  }

  /** The setting is one that the program's types allow. */
  predicate Typed(kind: Kind, s: Setting) {
    match kind
    case Flag(_) => s.OfFlag?
    case Free => s.OfText?
    case LanguageCode => s.OfText?
    case ProfileId => s.OfText?
    case Choice(texts) => s.OfChoice? && s.choice < |texts|
    case Accent => s.OfAccent? && (s.color.Some? ==> InBytes(s.color.value))
    case Scale => s.OfScale?
    case Whole(_, _, _) => s.OfWhole?
    case Words(_, _, _) => s.OfWords?
  }

  /** ... and one that can be used. */
  predicate Valid(kind: Kind, s: Setting) {
    && Typed(kind, s)
    && match kind
       case LanguageCode => ValidLanguage(s.text)
       case ProfileId => ValidId(s.text)
       case Accent => s.color.Some? ==> s.color.value.alpha == 255
       case Scale => ValidScale(s.scale)
       case Whole(least, most, _) => least <= s.number <= most
       case Words(known, needed, _) => ValidWords(known, needed, s.words)
       case _ => true
  }

  function TextsOf(words: seq<string>): (r: seq<Value>)
    ensures |r| == |words| && forall k :: 0 <= k < |r| ==> r[k] == Text(words[k])
  {
    if words == [] then [] else TextsOf(words[..|words| - 1]) + [Text(words[|words| - 1])]
  }

  function Written(kind: Kind, s: Setting): Value
    requires Typed(kind, s)
  {
    match s
    case OfFlag(flag) => Boolean(flag)
    case OfText(text) => Text(text)
    case OfChoice(choice) => Text(kind.texts[choice])
    case OfAccent(color) => Text(if color.Some? then ToHex(color.value) else "default")
    case OfScale(scale) => Float(scale)
    case OfWhole(number) => Integer(number)
    case OfWords(words) => Array(TextsOf(words))
  }

  /** A kind is usable: its texts differ, its words have no space around, its default is valid. */
  predicate KindOk(kind: Kind) {
    && Valid(kind, DefaultOf(kind))
    && (kind.Choice? ==> Distinct(kind.texts))
    && (kind.Words? ==> forall k :: 0 <= k < |kind.known| ==> Trimmed(kind.known[k]) == kind.known[k])
  }

  lemma ReadIsValid(kind: Kind, v: Value)
    ensures Read(kind, v).Some? ==> Valid(kind, Read(kind, v).value)
  {
    if kind.Accent? && v.Text? {
      ColorIsValid(v.text);
    }
  }

  lemma WordsRoundTrip(known: seq<string>, needed: bool, words: seq<string>)
    requires ValidWords(known, needed, words)
    requires forall k :: 0 <= k < |known| ==> Trimmed(known[k]) == known[k]
    ensures TrimmedAll(TextsOf(words)) == Some(words)
  {
    var r := TrimmedAll(TextsOf(words));
    assert r.value == words;
  }

  /** A setting is read back as it was exactly if it is valid. */
  lemma ReadUndoesWritten(kind: Kind, s: Setting)
    requires KindOk(kind) && Typed(kind, s)
    ensures Read(kind, Written(kind, s)) == Some(s) <==> Valid(kind, s)
  {
    ReadIsValid(kind, Written(kind, s));
    if Valid(kind, s) {
      match kind
      case Choice(texts) =>
        assert texts[Find(texts, texts[s.choice])] == texts[s.choice];
      case Accent =>
        if s.color.Some? {
          ColorRoundTrips(s.color.value);
          assert ToHex(s.color.value)[0] != "default"[0];
        }
      case Words(known, needed, _) => WordsRoundTrip(known, needed, s.words);
      case _ =>
    }
  }
}
