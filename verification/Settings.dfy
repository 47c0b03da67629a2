/** The settings file as a table: reading it field by field, and writing it back with whatever this
    version does not know. */
module Settings {
  import opened Common
  import opened SettingKinds
  import CommandLine

  type Keys = map<string, Value>

  datatype Section = General | Appearance | Terminal | Security | Ssh | Sftp

  datatype Field =
    | Language | OnLastTabClosed | RestoreSessions | ConfirmCloseWithSessions | CheckForUpdates | Theme
    | AccentColor | Density | UiScale | UiFont | ReduceMotion | Contrast | RailPosition | RailLabels |
    SidePanelPosition | TabsPosition | ShowStatusBar | WindowDecorations | Profile | LockAfterMinutes |
    Backend | AuthOrder | KeepaliveSecs | AutoReconnect | DetectOs | Monitor | MonitorIntervalSecs |
    MonitorMetrics | SendLocale | Log | LogsDir | Parallel | Policy | PreserveTimes |
    PreservePermissions | ShowHidden | EditorCommand | ConfirmDelete | FollowTerminal

  function SectionOf(f: Field): Section {
    match f
    case Language | OnLastTabClosed | RestoreSessions | ConfirmCloseWithSessions | CheckForUpdates =>
       General
    case Theme | AccentColor | Density | UiScale | UiFont | ReduceMotion | Contrast | RailPosition |
       RailLabels | SidePanelPosition | TabsPosition | ShowStatusBar | WindowDecorations => Appearance
    case Profile => Terminal
    case LockAfterMinutes => Security
    case Backend | AuthOrder | KeepaliveSecs | AutoReconnect | DetectOs | Monitor | MonitorIntervalSecs
       | MonitorMetrics | SendLocale | Log | LogsDir => Ssh
    case _ => Sftp
  }

  function NameOf(f: Field): string {
    match f
    case Language => "language"
    case OnLastTabClosed => "on_last_tab_closed"
    case RestoreSessions => "restore_sessions"
    case ConfirmCloseWithSessions => "confirm_close_with_sessions"
    case CheckForUpdates => "check_for_updates"
    case Theme => "theme"
    case AccentColor => "accent"
    case Density => "density"
    case UiScale => "ui_scale"
    case UiFont => "ui_font"
    case ReduceMotion => "reduce_motion"
    case Contrast => "contrast"
    case RailPosition => "rail_position"
    case RailLabels => "rail_labels"
    case SidePanelPosition => "side_panel_position"
    case TabsPosition => "tabs_position"
    case ShowStatusBar => "show_status_bar"
    case WindowDecorations => "window_decorations"
    case Profile => "profile"
    case LockAfterMinutes => "lock_after_minutes"
    case Backend => "backend"
    case AuthOrder => "auth_order"
    case KeepaliveSecs => "keepalive_secs"
    case AutoReconnect => "auto_reconnect"
    case DetectOs => "detect_os"
    case Monitor => "monitor"
    case MonitorIntervalSecs => "monitor_interval_secs"
    case MonitorMetrics => "monitor_metrics"
    case SendLocale => "send_locale"
    case Log => "log"
    case LogsDir => "logs_dir"
    case Parallel => "parallel"
    case Policy => "policy"
    case PreserveTimes => "preserve_times"
    case PreservePermissions => "preserve_permissions"
    case ShowHidden => "show_hidden"
    case EditorCommand => "editor_command"
    case ConfirmDelete => "confirm_delete"
    case FollowTerminal => "follow_terminal"
  }

  const AUTH_METHODS := ["publickey", "keyboard-interactive", "password"]
  const METRICS := ["cpu", "memory", "network", "disk", "uptime", "load", "users"]

  /** What each setting may be, and its default (of a choice, the first). */
  function KindOf(f: Field): Kind {
    match f
    case Language => LanguageCode
    case OnLastTabClosed => Choice(["keep_window", "quit"])
    case RestoreSessions => Flag(false)
    case ConfirmCloseWithSessions => Flag(true)
    case CheckForUpdates => Flag(false)
    case Theme => Choice(["system", "dark", "light"])
    case AccentColor => Accent
    case Density => Choice(["comfortable", "compact"])
    case UiScale => Scale
    case UiFont => Free
    case ReduceMotion => Flag(false)
    case Contrast => Choice(["system", "high", "standard"])
    case RailPosition => Choice(["left", "right", "hidden"])
    case RailLabels => Flag(false)
    case SidePanelPosition => Choice(["right", "left"])
    case TabsPosition => Choice(["title_bar", "below_title_bar"])
    case ShowStatusBar => Flag(true)
    case WindowDecorations => Choice(["auto", "custom", "native", "none"])
    case Profile => ProfileId
    case LockAfterMinutes => Whole(0, 1440, 15)
    case Backend => Choice(["internal", "openssh"])
    case AuthOrder => Words(AUTH_METHODS, true, AUTH_METHODS)
    case KeepaliveSecs => Whole(0, 3600, 30)
    case AutoReconnect => Flag(false)
    case DetectOs => Flag(true)
    case Monitor => Flag(true)
    case MonitorIntervalSecs => Whole(1, 60, 3)
    case MonitorMetrics => Words(METRICS, false, METRICS[..5])
    case SendLocale => Flag(true)
    case Log => Choice(["off", "text", "raw"])
    case LogsDir => Free
    case Parallel => Whole(1, 16, 3)
    case Policy => Choice(["ask", "overwrite", "newer", "resume", "skip", "rename"])
    case PreserveTimes => Flag(true)
    case PreservePermissions => Flag(false)
    case ShowHidden => Flag(false)
    case EditorCommand => Free
    case ConfirmDelete => Flag(true)
    case FollowTerminal => Flag(true)
  }

  function SectionName(s: Section): string {
    match s
    case General => "general"
    case Appearance => "appearance"
    case Terminal => "terminal"
    case Security => "security"
    case Ssh => "ssh"
    case Sftp => "sftp"
  }

  const VERSION := "schema_version"
  const SCHEMA := 1

  const SECTIONS: set<Section> := {General, Appearance, Terminal, Security, Ssh, Sftp}

  lemma NamesDiffer(f: Field, g: Field)
    requires f != g && SectionOf(f) == SectionOf(g)
    ensures NameOf(f) != NameOf(g)
  {
    match SectionOf(f)
    case Appearance => AppearanceNamesDiffer(f, g);
    case Ssh => SshNamesDiffer(f, g);
    case Sftp => SftpNamesDiffer(f, g);
    case _ =>
  }

  lemma AppearanceNamesDiffer(f: Field, g: Field)
    requires f != g && SectionOf(f) == SectionOf(g) == Appearance
    ensures NameOf(f) != NameOf(g)
  {
  }

  lemma SshNamesDiffer(f: Field, g: Field)
    requires f != g && SectionOf(f) == SectionOf(g) == Ssh
    ensures NameOf(f) != NameOf(g)
  {
  }

  lemma SftpNamesDiffer(f: Field, g: Field)
    requires f != g && SectionOf(f) == SectionOf(g) == Sftp
    ensures NameOf(f) != NameOf(g)
  {
  }

  lemma NamesDifferAll(s: Section)
    ensures forall f: Field, g: Field ::
              SectionOf(f) == s && SectionOf(g) == s && NameOf(f) == NameOf(g) ==> f == g
  {
    forall f: Field, g: Field | SectionOf(f) == s && SectionOf(g) == s && NameOf(f) == NameOf(g)
      ensures f == g
    {
      if f != g {
        NamesDiffer(f, g);
      }
    }
  }

  function SectionNamed(k: string): Option<Section> {
    if k == "general" then Some(General)
    else if k == "appearance" then Some(Appearance)
    else if k == "terminal" then Some(Terminal)
    else if k == "security" then Some(Security)
    else if k == "ssh" then Some(Ssh)
    else if k == "sftp" then Some(Sftp)
    else None
  }

  lemma SectionIsNamed(s: Section)
    ensures SectionNamed(SectionName(s)) == Some(s) && SectionName(s) in Reserved()
  {
  }

  lemma NamedSection(k: string)
    ensures SectionNamed(k).Some? ==> SectionName(SectionNamed(k).value) == k
    ensures SectionNamed(k).None? && k in Reserved() ==> k == VERSION
  {
    if SectionNamed(k).None? && k in Reserved() && k != VERSION {
      var s: Section :| SectionName(s) == k;
      SectionIsNamed(s);
    }
  }

  lemma SectionNamesDiffer(s: Section, t: Section)
    ensures SectionName(s) != VERSION && (s != t ==> SectionName(s) != SectionName(t))
  {
  }

  lemma TrimmedAlready(s: string)
    requires s != "" && !CommandLine.IsSpace(s[0]) && !CommandLine.IsSpace(s[|s| - 1])
    ensures Trimmed(s) == s
  {
  }

  lemma WordsAreTrimmed(known: seq<string>)
    requires known == AUTH_METHODS || known == METRICS
    ensures forall k :: 0 <= k < |known| ==> Trimmed(known[k]) == known[k]
  {
    forall k | 0 <= k < |known|
      ensures Trimmed(known[k]) == known[k]
    {
      TrimmedAlready(known[k]);
    }
  }

  lemma WordsDiffer(known: seq<string>)
    requires known == AUTH_METHODS || known == METRICS
    ensures Distinct(known)
  {
  }

  lemma KindsAreOk(f: Field)
    ensures KindOk(KindOf(f))
  {
    if KindOf(f).Words? {
      WordsAreTrimmed(KindOf(f).known);
      WordsAreOk(f);
    } else if KindOf(f).Choice? {
      TextsDiffer(f);
    } else {
      OthersAreOk(f);
    }
  }

  lemma OthersAreOk(f: Field)
    requires !KindOf(f).Words? && !KindOf(f).Choice?
    ensures Valid(KindOf(f), DefaultOf(KindOf(f)))
  {
    assert ValidId("default");
  }

  lemma WordsAreOk(f: Field)
    requires KindOf(f).Words?
    ensures var k := KindOf(f); ValidWords(k.known, k.needed, k.chosen)
  {
    WordsDiffer(KindOf(f).known);
  }

  lemma TextsDiffer(f: Field)
    requires KindOf(f).Choice?
    ensures Distinct(KindOf(f).texts) && KindOf(f).texts != []
  {
  }

  function NamesIn(fields: set<Field>): set<string> { set f | f in fields :: NameOf(f) }

  function FieldsOf(s: Section): set<Field> { set f: Field | SectionOf(f) == s }

  function Reserved(): set<string> { (set s: Section | true :: SectionName(s)) + {VERSION} }

  // ---- What a document says -----------------------------------------------------------------

  function TableAt(doc: Keys, s: Section): Keys {
    var name := SectionName(s);
    if name in doc && doc[name].Table? then doc[name].table else map[]
  }

  /** What a section's table says of a field, or else `target`. */
  function Got(table: Keys, f: Field, target: Setting): Setting {
    if NameOf(f) in table && Read(KindOf(f), table[NameOf(f)]).Some?
    then Read(KindOf(f), table[NameOf(f)]).value else target
  }

  function SettingIn(doc: Keys, f: Field): Setting { Got(TableAt(doc, SectionOf(f)), f, DefaultOf(KindOf(f))) }

  /** What a section's table says that this version does not know. */
  function Unknown(doc: Keys, s: Section): Keys { TableAt(doc, s) - NamesIn(FieldsOf(s)) }

  function VersionOf(doc: Keys): int {
    if VERSION in doc && doc[VERSION].Integer? then doc[VERSION].n else SCHEMA
  }

  /** What a warning is about. */
  datatype Key =
    | AboutVersion
    | AboutSection(section: Section)
    | AboutField(field: Field)
    | AboutUnknown(section: Section, name: string)
    | AboutTop(name: string)

  predicate Warned(doc: Keys, k: Key) {
    match k
    case AboutVersion => VERSION in doc && doc[VERSION] != Integer(SCHEMA)
    case AboutSection(s) => SectionName(s) in doc && !doc[SectionName(s)].Table?
    case AboutField(f) => Complains(TableAt(doc, SectionOf(f)), f)
    case AboutUnknown(s, name) => name in Unknown(doc, s)
    case AboutTop(name) => name in doc && name !in Reserved()
  }

  predicate Complains(table: Keys, f: Field) {
    NameOf(f) in table && Read(KindOf(f), table[NameOf(f)]).None?
  }

  // ---- Settings and documents ---------------------------------------------------------------

  datatype Config = Config(values: map<Field, Setting>, extra: Keys)

  ghost predicate TypedConfig(c: Config) {
    forall f: Field :: f in c.values && Typed(KindOf(f), c.values[f])
  }

  ghost predicate ValidConfig(c: Config) {
    forall f: Field :: f in c.values && Valid(KindOf(f), c.values[f])
  }

  /** What is kept of a document under a key of the top level. */
  function KeptAt(doc: Keys, k: string): Option<Value> {
    match SectionNamed(k)
    case Some(s) => if Unknown(doc, s) == map[] then None else Some(Table(Unknown(doc, s)))
    case None => if k in doc && k != VERSION then Some(doc[k]) else None
  }

  /** The settings of a document. */
  function Parsed(doc: Keys): Config {
    Config(map f: Field | true :: SettingIn(doc, f), map k | k in doc && KeptAt(doc, k).Some? :: KeptAt(doc, k).value)
  }

  /** A section as it is written: its settings alone. */
  ghost function KnownTable(c: Config, s: Section): Keys
    requires TypedConfig(c)
  {
    map n | n in NamesIn(FieldsOf(s)) :: Written(KindOf(FieldNamed(s, n)), c.values[FieldNamed(s, n)])
  }

  ghost function FieldNamed(s: Section, n: string): (f: Field)
    requires n in NamesIn(FieldsOf(s))
    ensures SectionOf(f) == s && NameOf(f) == n
  {
    var f: Field :| SectionOf(f) == s && NameOf(f) == n;
    f
  }

  ghost function PutAt(c: Config, k: string): Value
    requires TypedConfig(c) && (k in c.extra || k in Reserved())
  {
    match SectionNamed(k)
    case Some(s) => Table(TableAt(c.extra, s) + KnownTable(c, s))
    case None => if k == VERSION then Integer(SCHEMA) else c.extra[k]
  }

  /** The document written for these settings. */
  ghost function Serialized(c: Config): Keys
    requires TypedConfig(c)
  {
    map k | k in c.extra.Keys + Reserved() :: PutAt(c, k)
  }

  // ---- Saving and loading -------------------------------------------------------------------

  lemma KnownTableIs(c: Config, s: Section)
    requires TypedConfig(c)
    ensures KnownTable(c, s).Keys == NamesIn(FieldsOf(s))
    ensures forall f: Field :: SectionOf(f) == s ==>
              NameOf(f) in KnownTable(c, s) && KnownTable(c, s)[NameOf(f)] == Written(KindOf(f), c.values[f])
  {
    forall f: Field | SectionOf(f) == s
      ensures NameOf(f) in NamesIn(FieldsOf(s)) && FieldNamed(s, NameOf(f)) == f
    {
      assert f in FieldsOf(s);
      NamesDifferAll(s);
    }
  }

  lemma TableIsPut(c: Config, s: Section)
    requires TypedConfig(c)
    ensures TableAt(Serialized(c), s) == TableAt(c.extra, s) + KnownTable(c, s)
  {
    SectionIsNamed(s);
  }

  lemma UnknownIsKept(c: Config, s: Section)
    requires TypedConfig(c)
    ensures Unknown(Serialized(c), s) == Unknown(c.extra, s)
  {
    TableIsPut(c, s);
    KnownTableIs(c, s);
  }

  lemma SettingIsKept(c: Config, f: Field)
    requires TypedConfig(c)
    ensures SettingIn(Serialized(c), f) == c.values[f] <==> Valid(KindOf(f), c.values[f])
    ensures Valid(KindOf(f), c.values[f]) ==> !Complains(TableAt(Serialized(c), SectionOf(f)), f)
  {
    TableIsPut(c, SectionOf(f));
    KnownTableIs(c, SectionOf(f));
    KindsAreOk(f);
    ReadUndoesWritten(KindOf(f), c.values[f]);
    ReadIsValid(KindOf(f), Written(KindOf(f), c.values[f]));
  }

  lemma KeptOnlyIfThere(doc: Keys, k: string)
    ensures KeptAt(doc, k).Some? ==> k in doc
  {
    NamedSection(k);
  }

  lemma KeptAfterSaving(c: Config, k: string)
    requires TypedConfig(c)
    ensures KeptAt(Serialized(c), k) == KeptAt(c.extra, k)
  {
    NamedSection(k);
    match SectionNamed(k)
    case Some(s) => UnknownIsKept(c, s);
    case None =>
  }

  /** Loading what was saved gives the same settings exactly if they are valid, and what it would
      keep of the unknown keys by themselves: known keys always win. */
  lemma SavedThenLoaded(c: Config)
    requires TypedConfig(c)
    ensures (forall f: Field :: Parsed(Serialized(c)).values[f] == c.values[f]) <==> ValidConfig(c)
    ensures Parsed(Serialized(c)).extra == Parsed(c.extra).extra
  {
    forall f: Field
      ensures Parsed(Serialized(c)).values[f] == c.values[f] <==> Valid(KindOf(f), c.values[f])
    {
      SettingIsKept(c, f);
    }
    forall k
      ensures KeptAt(Serialized(c), k) == KeptAt(c.extra, k)
      ensures KeptAt(c.extra, k).Some? ==> k in c.extra && k in Serialized(c)
    {
      KeptAfterSaving(c, k);
      KeptOnlyIfThere(c.extra, k);
      KeptOnlyIfThere(Serialized(c), k);
    }
  }

  lemma ValuesAreKept(c: Config)
    requires ValidConfig(c) && TypedConfig(c)
    ensures Parsed(Serialized(c)).values == c.values
  {
    SavedThenLoaded(c);
  }

  /** Whatever the document, every setting that comes out of it is valid. */
  lemma ParsedIsValid(doc: Keys)
    ensures ValidConfig(Parsed(doc)) && TypedConfig(Parsed(doc))
  {
    forall f: Field
      ensures Valid(KindOf(f), Parsed(doc).values[f])
    {
      KindsAreOk(f);
      var table := TableAt(doc, SectionOf(f));
      if NameOf(f) in table {
        ReadIsValid(KindOf(f), table[NameOf(f)]);
      }
    }
  }

  lemma KeptTwice(doc: Keys, k: string)
    ensures KeptAt(Parsed(doc).extra, k) == KeptAt(doc, k)
  {
    var extra := Parsed(doc).extra;
    NamedSection(k);
    KeptOnlyIfThere(doc, k);
    match SectionNamed(k)
    case Some(s) =>
      assert TableAt(extra, s) == Unknown(doc, s);
      assert Unknown(extra, s) == Unknown(doc, s);
    case None =>
  }

  lemma ExtraIsKept(doc: Keys)
    ensures Parsed(Parsed(doc).extra).extra == Parsed(doc).extra
  {
    var extra := Parsed(doc).extra;
    forall k
      ensures KeptAt(extra, k) == KeptAt(doc, k) && (KeptAt(doc, k).Some? ==> k in doc && k in extra)
    {
      KeptTwice(doc, k);
      KeptOnlyIfThere(doc, k);
      KeptOnlyIfThere(extra, k);
    }
  }

  /** Loading, saving and loading again gives the same settings and the same unknown keys, for
      every document. */
  lemma RoundTrip(doc: Keys)
    ensures TypedConfig(Parsed(doc)) && Parsed(Serialized(Parsed(doc))) == Parsed(doc)
  {
    var c := Parsed(doc);
    ParsedIsValid(doc);
    SavedThenLoaded(c);
    ExtraIsKept(doc);
    ValuesAreKept(c);
  }

  lemma PutTheSame(c: Config, d: Config, k: string)
    requires TypedConfig(c) && TypedConfig(d) && d.values == c.values && d.extra == Parsed(c.extra).extra
    requires k in c.extra || k in Reserved()
    ensures k in d.extra || k in Reserved()
    ensures PutAt(d, k) == PutAt(c, k)
  {
    NamedSection(k);
    match SectionNamed(k)
    case Some(s) =>
      SectionIsNamed(s);
      KeptTwice(c.extra, k);
      assert TableAt(d.extra, s) == Unknown(c.extra, s);
      KnownTableIs(c, s);
      assert TableAt(d.extra, s) + KnownTable(d, s) == TableAt(c.extra, s) + KnownTable(c, s);
    case None =>
      assert VERSION in Reserved();
  }

  /** Saving what was loaded of a saved document writes the same document. */
  lemma SavingIsStable(c: Config)
    requires ValidConfig(c) && TypedConfig(c)
    ensures var d := Parsed(Serialized(c)); TypedConfig(d) && Serialized(d) == Serialized(c)
  {
    var d := Parsed(Serialized(c));
    ParsedIsValid(Serialized(c));
    ValuesAreKept(c);
    SavedThenLoaded(c);
    forall k | k in c.extra || k in Reserved()
      ensures (k in d.extra || k in Reserved()) && PutAt(d, k) == PutAt(c, k)
    {
      PutTheSame(c, d, k);
    }
    forall k | k in d.extra
      ensures k in c.extra
    {
      KeptOnlyIfThere(c.extra, k);
    }
  }

  /** A saved document has no version, section or known setting to complain about. */
  lemma SavedIsClean(c: Config)
    requires TypedConfig(c)
    ensures VersionOf(Serialized(c)) == SCHEMA
    ensures ValidConfig(c) ==> forall k :: Warned(Serialized(c), k) ==> k.AboutUnknown? || k.AboutTop?
  {
    SavedVersion(c);
    if ValidConfig(c) {
      forall k
        ensures Warned(Serialized(c), k) ==> k.AboutUnknown? || k.AboutTop?
      {
        if !k.AboutUnknown? && !k.AboutTop? {
          SavedAsExpected(c, k);
        }
      }
    }
  }

  lemma SavedVersion(c: Config)
    requires TypedConfig(c)
    ensures VERSION in Serialized(c) && Serialized(c)[VERSION] == Integer(SCHEMA)
  {
    PutAtVersion(c);
  }

  lemma SavedAsExpected(c: Config, k: Key)
    requires TypedConfig(c) && ValidConfig(c) && !k.AboutUnknown? && !k.AboutTop?
    ensures !Warned(Serialized(c), k)
  {
    match k
    case AboutVersion => SavedVersion(c);
    case AboutSection(s) => SectionIsNamed(s);
    case AboutField(f) => SettingIsKept(c, f);
  }

  /** Changing one key of one section changes no setting but the one of that key. */
  lemma OneBadValue(doc: Keys, s: Section, name: string, v: Value, f: Field)
    requires SectionOf(f) != s || NameOf(f) != name
    ensures SettingIn(doc[SectionName(s) := Table(TableAt(doc, s)[name := v])], f) == SettingIn(doc, f)
  {
    SectionNamesDiffer(SectionOf(f), s);
  }

  /** What this version doesn't know is written back as it was. */
  lemma UnknownSurvives(doc: Keys)
    ensures TypedConfig(Parsed(doc))
    ensures forall k :: k in doc && k !in Reserved() ==>
              k in Serialized(Parsed(doc)) && Serialized(Parsed(doc))[k] == doc[k]
    ensures forall s: Section :: Unknown(Serialized(Parsed(doc)), s) == Unknown(doc, s)
  {
    var c := Parsed(doc);
    ParsedIsValid(doc);
    forall k | k in doc && k !in Reserved()
      ensures k in Serialized(c) && Serialized(c)[k] == doc[k]
    {
      NamedSection(k);
      if SectionNamed(k).Some? {
        SectionIsNamed(SectionNamed(k).value);
      }
      assert VERSION in Reserved();
    }
    forall s: Section
      ensures Unknown(Serialized(c), s) == Unknown(doc, s)
    {
      UnknownIsKept(c, s);
      SectionIsNamed(s);
      KeptTwice(doc, SectionName(s));
    }
  }

  // ---- Reading ------------------------------------------------------------------------------

  /** Finds a text among those of a choice. */
  method FindText(texts: seq<string>, text: string) returns (i: nat)
    ensures i == Find(texts, text)
  {
    i := 0;
    while i < |texts| && texts[i] != text
      invariant i <= |texts| && forall k :: 0 <= k < i ==> texts[k] != text
    {
      i := i + 1;
    }
  }

  /** The texts of a list, without the space around them. */
  method TrimItems(items: seq<Value>) returns (r: Option<seq<string>>)
    ensures r == TrimmedAll(items)
  {
    var words := [];
    for i := 0 to |items|
      invariant TrimmedAll(items[..i]) == Some(words)
    {
      assert items[..i + 1][..i] == items[..i];
      if !items[i].Text? {
        return None;
      }
      words := words + [Trimmed(items[i].text)];
    }
    assert items[..|items|] == items;
    r := Some(words);
  }

  /** What a value means for a setting of this kind. */
  method Interpret(kind: Kind, v: Value) returns (r: Option<Setting>)
    ensures r == Read(kind, v) && (r.Some? ==> Valid(kind, r.value))
  {
    ReadIsValid(kind, v);
    match kind
    case Choice(texts) =>
      if v.Text? {
        var i := FindText(texts, v.text);
        return if i < |texts| then Some(OfChoice(i)) else None;
      }
      return None;
    case Words(known, needed, _) =>
      if v.Array? {
        var words := TrimItems(v.items);
        return if words.Some? && ValidWords(known, needed, words.value) then Some(OfWords(words.value)) else None;
      }
      return None;
    case _ => return Read(kind, v);
  }

  class Reader {
    var warnings: seq<Key>

    constructor ()
      ensures warnings == []
    {
      warnings := [];
    }

    /** Takes a section out of the document; anything but a table is as good as none. */
    method Section(root: Keys, s: Section) returns (rest: Keys, table: Keys)
      modifies this
      ensures rest == root - {SectionName(s)} && table == TableAt(root, s)
      ensures warnings == old(warnings) + (if Warned(root, AboutSection(s)) then [AboutSection(s)] else [])
    {
      var name := SectionName(s);
      rest := root - {name};
      if name !in root {
        return rest, map[];
      } else if root[name].Table? {
        return rest, root[name].table;
      }
      warnings := warnings + [AboutSection(s)];
      return rest, map[];
    }

    /** Takes a field out of its section, into `target` if its value is of use. */
    method TakeField(table: Keys, f: Field, target: Setting) returns (rest: Keys, setting: Setting)
      modifies this
      ensures rest == table - {NameOf(f)} && setting == Got(table, f, target)
      ensures warnings == old(warnings) + (if Complains(table, f) then [AboutField(f)] else [])
    {
      var name := NameOf(f);
      rest, setting := table - {name}, target;
      if name !in table {
        return;
      }
      var r := Interpret(KindOf(f), table[name]);
      if r.Some? {
        setting := r.value;
      } else {
        warnings := warnings + [AboutField(f)];
      }
    }

    /** Takes every field of a section, in any order. */
    method Fields(table: Keys, s: Section, values: map<Field, Setting>)
        returns (rest: Keys, values': map<Field, Setting>)
      requires forall f: Field :: f in values
      modifies this
      ensures rest == table - NamesIn(FieldsOf(s))
      ensures forall f: Field :: f in values' &&
                values'[f] == if SectionOf(f) == s then Got(table, f, values[f]) else values[f]
      ensures forall k :: k in warnings <==> k in old(warnings) || ToldOf(table, FieldsOf(s), k)
    {
      var todo := FieldsOf(s);
      ghost var done: set<Field> := {};
      rest, values' := table, values;
      while todo != {}
        invariant todo + done == FieldsOf(s) && todo !! done
        invariant rest == table - NamesIn(done)
        invariant forall f: Field :: f in values' && values'[f] == if f in done then Got(table, f, values[f]) else values[f]
        invariant forall k :: k in warnings <==> k in old(warnings) || ToldOf(table, done, k)
        decreases todo
      {
        var f :| f in todo;
        var setting;
        NotAmong(table, f, done);
        StillThere(table, f, done, values'[f]);
        rest, setting := TakeField(rest, f, values'[f]);
        values' := values'[f := setting];
        todo, done := todo - {f}, done + {f};
      }
    }

    /** Warns of each key of a table. */
    method WarnAll(table: Keys, s: Option<Section>)
      modifies this
      ensures forall k :: k in warnings <==> k in old(warnings) || LeftIn(table.Keys, s, k)
    {
      var todo := table.Keys;
      while todo != {}
        invariant todo <= table.Keys
        invariant forall k :: k in warnings <==> k in old(warnings) || LeftIn(table.Keys - todo, s, k)
        decreases todo
      {
        var name :| name in todo;
        warnings := warnings + [if s.Some? then AboutUnknown(s.value, name) else AboutTop(name)];
        todo := todo - {name};
      }
      assert table.Keys - {} == table.Keys;
    }
  }

  /** A warning of one of these fields. */
  predicate ToldOf(table: Keys, done: set<Field>, k: Key) {
    k.AboutField? && k.field in done && Complains(table, k.field)
  }

  /** A warning of one of these unknown keys. */
  predicate LeftIn(names: set<string>, s: Option<Section>, k: Key) {
    match s
    case Some(s) => k.AboutUnknown? && k.section == s && k.name in names
    case None => k.AboutTop? && k.name in names
  }

  lemma NotAmong(table: Keys, f: Field, done: set<Field>)
    requires done <= FieldsOf(SectionOf(f)) && f !in done
    ensures NameOf(f) !in NamesIn(done)
    ensures table - NamesIn(done) - {NameOf(f)} == table - NamesIn(done + {f})
  {
    NamesDifferAll(SectionOf(f));
    assert NamesIn(done + {f}) == NamesIn(done) + {NameOf(f)};
  }

  lemma StillThere(table: Keys, f: Field, done: set<Field>, t: Setting)
    requires NameOf(f) !in NamesIn(done)
    ensures Got(table - NamesIn(done), f, t) == Got(table, f, t)
    ensures Complains(table - NamesIn(done), f) == Complains(table, f)
  {
  }

  /** Reads a document: each section, each field of it, and what is left. */
  method Parse(doc: Keys) returns (config: Config, warnings: seq<Key>, readOnly: bool)
    ensures config == Parsed(doc)
    ensures forall k :: k in warnings <==> Warned(doc, k)
    ensures readOnly <==> VersionOf(doc) > SCHEMA
  {
    var reader := new Reader();
    var root := doc - {VERSION};
    var version := SCHEMA;
    if VERSION in doc {
      if doc[VERSION].Integer? {
        version := doc[VERSION].n;
      } else {
        reader.warnings := reader.warnings + [AboutVersion];
      }
    }
    readOnly := version > SCHEMA;
    if readOnly || version < 1 {
      reader.warnings := reader.warnings + [AboutVersion];
    }
    var values, rests;
    values, rests, root := ReadSections(reader, doc, root);
    reader.WarnAll(root, None);
    var extra := PutBack(doc, root, rests);
    config := Config(values, extra);
    warnings := reader.warnings;
  }

  /** Reads every section, in any order. */
  method ReadSections(reader: Reader, ghost doc: Keys, start: Keys)
      returns (values: map<Field, Setting>, rests: map<Section, Keys>, root: Keys)
    requires start == doc - {VERSION}
    requires WarnedUpTo(doc, reader.warnings, {})
    modifies reader
    ensures values == Parsed(doc).values && root == doc - Reserved()
    ensures forall s: Section :: s in rests && rests[s] == Unknown(doc, s)
    ensures forall k :: k in reader.warnings <==> Warned(doc, k) && !k.AboutTop?
  {
    var todo := SECTIONS;
    ghost var done: set<Section> := {};
    root, rests := start, map[];
    values := map f: Field | true :: DefaultOf(KindOf(f));
    while todo != {}
      invariant todo + done == SECTIONS && todo !! done
      invariant root == doc - Names(done) && LeftUpTo(doc, rests, done)
      invariant ReadUpTo(doc, values, done) && WarnedUpTo(doc, reader.warnings, done)
      decreases todo
    {
      var s :| s in todo;
      var rest;
      root, rest, values := ReadSection(reader, doc, root, s, values, done);
      rests := rests[s := rest];
      todo, done := todo - {s}, done + {s};
    }
    AllSections();
    AllNamed(done);
    AllRead(doc, values, done);
  }

  lemma AllRead(doc: Keys, values: map<Field, Setting>, done: set<Section>)
    requires ReadUpTo(doc, values, done) && forall s: Section :: s in done
    ensures values == Parsed(doc).values
  {
  }

  predicate LeftUpTo(doc: Keys, rests: map<Section, Keys>, done: set<Section>) {
    forall s :: s in done ==> s in rests && rests[s] == Unknown(doc, s)
  }

  ghost predicate WarnedUpTo(doc: Keys, warnings: seq<Key>, done: set<Section>) {
    forall k :: k in warnings <==> Warned(doc, k) && InPart(k, done)
  }

  /** Reads one section. */
  method ReadSection(reader: Reader, ghost doc: Keys, root: Keys, s: Section, values: map<Field, Setting>,
                     ghost done: set<Section>)
      returns (root': Keys, rest: Keys, values': map<Field, Setting>)
    requires root == doc - Names(done) && s !in done && ReadUpTo(doc, values, done)
    requires WarnedUpTo(doc, reader.warnings, done)
    modifies reader
    ensures root' == doc - Names(done + {s}) && rest == Unknown(doc, s) && ReadUpTo(doc, values', done + {s})
    ensures WarnedUpTo(doc, reader.warnings, done + {s})
  {
    SectionStillThere(doc, s, done);
    var table;
    root', table := reader.Section(root, s);
    rest, values' := reader.Fields(table, s, values);
    reader.WarnAll(rest, Some(s));
  }

  /** The unknown keys of each section go back under its name. */
  method PutBack(ghost doc: Keys, root: Keys, rests: map<Section, Keys>) returns (extra: Keys)
    requires root == doc - Reserved()
    requires forall s: Section :: s in rests && rests[s] == Unknown(doc, s)
    ensures extra == Parsed(doc).extra
  {
    var todo := SECTIONS;
    extra := root;
    NothingPutBack(doc);
    while todo != {}
      invariant forall k :: k in extra <==> KeptBut(doc, k, todo).Some?
      invariant forall k :: k in extra ==> extra[k] == KeptBut(doc, k, todo).value
      decreases todo
    {
      var s :| s in todo;
      SectionIsNamed(s);
      forall k
        ensures KeptBut(doc, k, todo - {s}) == if k == SectionName(s) then KeptAt(doc, k) else KeptBut(doc, k, todo)
      {
        NamedSection(k);
      }
      if rests[s] != map[] {
        extra := extra[SectionName(s) := Table(rests[s])];
      }
      todo := todo - {s};
    }
    forall k
      ensures KeptAt(doc, k).Some? ==> k in doc
    {
      KeptOnlyIfThere(doc, k);
    }
  }

  function Names(done: set<Section>): set<string> { (set s | s in done :: SectionName(s)) + {VERSION} }

  predicate ReadUpTo(doc: Keys, values: map<Field, Setting>, done: set<Section>) {
    forall f: Field :: f in values &&
      values[f] == if SectionOf(f) in done then SettingIn(doc, f) else DefaultOf(KindOf(f))
  }

  /** Warnings that come while the sections are read. */
  predicate InPart(k: Key, done: set<Section>) {
    match k
    case AboutVersion => true
    case AboutSection(s) => s in done
    case AboutField(f) => SectionOf(f) in done
    case AboutUnknown(s, _) => s in done
    case AboutTop(_) => false
  }

  lemma AllSections()
    ensures forall s: Section :: s in SECTIONS
  {
    forall s: Section
      ensures s in SECTIONS
    {
      match s
      case General =>
      case Appearance =>
      case Terminal =>
      case Security =>
      case Ssh =>
      case Sftp =>
    }
  }

  lemma NamesMore(done: set<Section>, s: Section)
    ensures Names(done + {s}) == Names(done) + {SectionName(s)}
  {
  }

  lemma AllNamed(done: set<Section>)
    requires forall s: Section :: s in done
    ensures Names(done) == Reserved()
  {
  }

  lemma SectionStillThere(doc: Keys, s: Section, done: set<Section>)
    requires s !in done
    ensures TableAt(doc - Names(done), s) == TableAt(doc, s)
    ensures Warned(doc - Names(done), AboutSection(s)) == Warned(doc, AboutSection(s))
    ensures doc - Names(done) - {SectionName(s)} == doc - Names(done + {s})
  {
    forall t: Section
      ensures SectionName(s) != VERSION && (s != t ==> SectionName(s) != SectionName(t))
    {
      SectionNamesDiffer(s, t);
    }
    NamesMore(done, s);
  }

  /** What is kept under a key, but for the sections in `todo`. */
  function KeptBut(doc: Keys, k: string, todo: set<Section>): Option<Value> {
    if SectionNamed(k).Some? && SectionNamed(k).value in todo then None else KeptAt(doc, k)
  }

  lemma NothingPutBack(doc: Keys)
    ensures var root, todo := doc - Reserved(), SECTIONS;
            && (forall k :: k in root <==> KeptBut(doc, k, todo).Some?)
            && (forall k :: k in root ==> root[k] == KeptBut(doc, k, todo).value)
  {
    var root, todo := doc - Reserved(), SECTIONS;
    forall k
      ensures k in root <==> KeptBut(doc, k, todo).Some?
      ensures k in root ==> root[k] == KeptBut(doc, k, todo).value
    {
      NamedSection(k);
      assert VERSION in Reserved();
      if SectionNamed(k).Some? {
        SectionIsNamed(SectionNamed(k).value);
      }
    }
  }

  // ---- Writing ------------------------------------------------------------------------------

  /** Writes the document of these settings. */
  method Serialize(c: Config) returns (doc: Keys)
    requires TypedConfig(c)
    ensures doc == Serialized(c)
  {
    AllSections();
    var tables := map s | s in SECTIONS :: map[];
    var todo := SECTIONS;
    while todo != {}
      invariant forall s: Section :: s in tables && (s !in todo ==> tables[s] == KnownTable(c, s))
      decreases todo
    {
      var s :| s in todo;
      var table := WriteSection(c, s);
      tables := tables[s := table];
      todo := todo - {s};
    }
    doc, tables := KeepUnknown(c, tables);
    SerializedIsMadeOf(c, doc, tables);
    doc := Assemble(doc, tables, Serialized(c));
  }

  method WriteSection(c: Config, s: Section) returns (table: Keys)
    requires TypedConfig(c)
    ensures table == KnownTable(c, s)
  {
    var todo := FieldsOf(s);
    table := map[];
    KnownTableIs(c, s);
    while todo != {}
      invariant todo <= FieldsOf(s) && table.Keys == NamesIn(FieldsOf(s) - todo)
      invariant forall n :: n in table ==> table[n] == KnownTable(c, s)[n]
      decreases todo
    {
      var f :| f in todo;
      NamesGrow(FieldsOf(s), todo, f);
      table := table[NameOf(f) := Written(KindOf(f), c.values[f])];
      todo := todo - {f};
    }
    assert FieldsOf(s) - {} == FieldsOf(s);
  }

  lemma NamesGrow(fields: set<Field>, todo: set<Field>, f: Field)
    requires f in todo && todo <= fields
    ensures NamesIn(fields - (todo - {f})) == NamesIn(fields - todo) + {NameOf(f)}
  {
    assert fields - (todo - {f}) == fields - todo + {f};
  }

  /** The document with what the load could not name, wherever no setting has that key. */
  method KeepUnknown(c: Config, known: map<Section, Keys>) returns (root: Keys, tables: map<Section, Keys>)
    requires forall s: Section :: s in known
    ensures forall s: Section :: s in tables && tables[s] == TableAt(c.extra, s) + known[s]
    ensures root == c.extra - Reserved()
  {
    var todo := c.extra.Keys;
    root, tables := map[], known;
    while todo != {}
      invariant todo <= c.extra.Keys && root.Keys == c.extra.Keys - todo - Reserved()
      invariant forall k :: k in root ==> root[k] == c.extra[k]
      invariant forall s: Section :: s in tables &&
                  tables[s] == if SectionName(s) in todo then known[s] else TableAt(c.extra, s) + known[s]
      decreases todo
    {
      var k :| k in todo;
      NamedSection(k);
      if SectionNamed(k).Some? {
        var s := SectionNamed(k).value;
        OnlyThatSection(s, k);
        if c.extra[k].Table? {
          var table := OrInsert(tables[s], c.extra[k].table);
          tables := tables[s := table];
        }
      } else if k != VERSION {
        root := root[k := c.extra[k]];
      }
      todo := todo - {k};
    }
  }

  lemma OnlyThatSection(s: Section, k: string)
    requires k == SectionName(s)
    ensures k in Reserved() && forall t: Section :: SectionName(t) == k ==> t == s
  {
    SectionIsNamed(s);
    forall t: Section | t != s
      ensures SectionName(t) != k
    {
      SectionNamesDiffer(s, t);
    }
  }

  /** Adds the entries of `unknown` whose keys are not in `known`. */
  method OrInsert(known: Keys, unknown: Keys) returns (r: Keys)
    ensures r == unknown + known
  {
    var todo := unknown.Keys;
    r := known;
    while todo != {}
      invariant todo <= unknown.Keys && r.Keys == known.Keys + (unknown.Keys - todo)
      invariant forall k :: k in r ==> r[k] == if k in known then known[k] else unknown[k]
      decreases todo
    {
      var k :| k in todo;
      if k !in r {
        r := r[k := unknown[k]];
      }
      todo := todo - {k};
    }
  }

  /** The version and the sections join the other keys: that gives `full`. */
  method Assemble(root: Keys, tables: map<Section, Keys>, ghost full: Keys) returns (doc: Keys)
    requires MadeOf(full, root, tables)
    ensures doc == full
  {
    doc := root[VERSION := Integer(SCHEMA)];
    var todo := SECTIONS;
    ghost var done: set<Section> := {};
    while todo != {}
      invariant todo + done == SECTIONS && todo !! done
      invariant doc.Keys == root.Keys + Names(done) && forall k :: k in doc ==> k in full && doc[k] == full[k]
      decreases todo
    {
      var s :| s in todo;
      NamesMore(done, s);
      doc := doc[SectionName(s) := Table(tables[s])];
      todo, done := todo - {s}, done + {s};
    }
    AllSections();
    AllNamed(done);
  }

  ghost predicate MadeOf(full: Keys, root: Keys, tables: map<Section, Keys>) {
    && full.Keys == root.Keys + Reserved() && VERSION in Reserved() && full[VERSION] == Integer(SCHEMA)
    && (forall k :: k in root ==> k != VERSION && root[k] == full[k])
    && (forall s: Section :: s in tables && SectionName(s) in full && full[SectionName(s)] == Table(tables[s]))
  }

  lemma PutAtVersion(c: Config)
    requires TypedConfig(c)
    ensures VERSION in Reserved() && PutAt(c, VERSION) == Integer(SCHEMA)
  {
  }

  lemma PutAtTop(c: Config, k: string)
    requires TypedConfig(c) && k in c.extra && k !in Reserved()
    ensures PutAt(c, k) == c.extra[k] && k != VERSION
  {
    NamedSection(k);
    if SectionNamed(k).Some? {
      SectionIsNamed(SectionNamed(k).value);
    }
    assert VERSION in Reserved();
  }

  lemma SerializedIsMadeOf(c: Config, root: Keys, tables: map<Section, Keys>)
    requires TypedConfig(c) && root == c.extra - Reserved()
    requires forall s: Section :: s in tables && tables[s] == TableAt(c.extra, s) + KnownTable(c, s)
    ensures MadeOf(Serialized(c), root, tables)
  {
    PutAtVersion(c);
    forall k | k in root
      ensures k != VERSION && Serialized(c)[k] == root[k]
    {
      PutAtTop(c, k);
    }
    forall s: Section
      ensures SectionName(s) in Serialized(c) && Serialized(c)[SectionName(s)] == Table(tables[s])
    {
      SectionIsNamed(s);
    }
  }
}
