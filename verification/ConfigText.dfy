/** The concrete syntax of configuration files: every configuration that the grammar of
src/plugins/config/file_parser.y can derive, the tokens it is written with, what it means, and
the texts that spell it with any layout between the tokens.
 */
module ConfigText {
  import opened Wrappers
  import opened ConfigFile
  import opened L = Lexer

  // ---------------------------------------------------------------- configurations

  datatype PluginStmt = SetType(ptype: PluginType) | SetFile(file: string)

  /** A yes or no that stands behind the closing brace keeps the text of an earlier token. */
  datatype Value =
    | TextValue(text: string)
    | NumberValue(digits: string)
    | YesValue
    | NoValue
    | StaleYes(text: string)
    | StaleNo(text: string)

  datatype GlobalEntry =
    | PluginEntry(name: string, stmts: seq<PluginStmt>)
    | StorageEntry(name: string, plugin: string, values: seq<(string, Value)>)
    | SensorEntry(name: string, plugin: string, values: seq<(string, Value)>)

  datatype DataStmt =
    | SetDataType(dtype: DataType)
    | SetCf(cf: Consolidation)
    | SetSensor(sensor: string)
    | SetStorage(storage: string)
    | SetDesc(desc: string)

  datatype SystemEntry = DataEntry(name: string, stmts: seq<DataStmt>) | DescEntry(desc: string)

  datatype TopEntry = GlobalSection(globals: seq<GlobalEntry>) | SystemSection(name: string, entries: seq<SystemEntry>)

  // ---------------------------------------------------------------- what they mean

  function PluginRecord(r: GlobalPlugin, stmts: seq<PluginStmt>): GlobalPlugin
    decreases |stmts|
  {
    if stmts == [] then r
    else
      PluginRecord(match stmts[0]
                   case SetType(t) => r.(ptype := t)
                   case SetFile(f) => r.(file := Some(f)), stmts[1..])
  }

  function ValueText(v: Value): string {
    match v
    case TextValue(t) => t
    case NumberValue(d) => d
    case YesValue => "yes"
    case NoValue => "no"
    case StaleYes(t) => t
    case StaleNo(t) => t
  }

  function ValueRecords(values: seq<(string, Value)>): seq<(string, string)> {
    if values == [] then [] else [(values[0].0, ValueText(values[0].1))] + ValueRecords(values[1..])
  }

  function GlobalRecord(e: GlobalEntry): Added {
    match e
    case PluginEntry(name, stmts) => AddPlugin(PluginRecord(GlobalPlugin(name, PNone, None), stmts))
    case StorageEntry(name, plugin, values) => AddStorage(Instance(name, plugin, ValueRecords(values)))
    case SensorEntry(name, plugin, values) => AddSensor(Instance(name, plugin, ValueRecords(values)))
  }

  function GlobalRecords(es: seq<GlobalEntry>): seq<Added> {
    if es == [] then [] else [GlobalRecord(es[0])] + GlobalRecords(es[1..])
  }

  function DataRecord(r: ConfigFile.DataSet, stmts: seq<DataStmt>): ConfigFile.DataSet
    decreases |stmts|
  {
    if stmts == [] then r
    else
      DataRecord(match stmts[0]
                 case SetDataType(t) => r.(dtype := t)
                 case SetCf(c) => r.(cf := c)
                 case SetSensor(s) => r.(sensor := Some(s))
                 case SetStorage(s) => r.(storage := Some(s))
                 case SetDesc(d) => r.(desc := Some(d)), stmts[1..])
  }

  /** The data sets of a system, in order, and then the system with its last description. */
  function SystemRecords(name: string, desc: Option<string>, es: seq<SystemEntry>): seq<Added>
    decreases |es|
  {
    if es == [] then [AddSystem(ConfigFile.System(name, desc))]
    else
      match es[0]
      case DataEntry(dname, stmts) =>
        [AddDataSet(DataRecord(NEW_DATA_SET.(name := dname, system := name), stmts))]
        + SystemRecords(name, desc, es[1..])
      case DescEntry(d) => SystemRecords(name, Some(d), es[1..])
  }

  function TopRecords(e: TopEntry): seq<Added> {
    match e
    case GlobalSection(es) => GlobalRecords(es)
    case SystemSection(name, es) => SystemRecords(name, None, es)
  }

  function Records(config: seq<TopEntry>): seq<Added> {
    if config == [] then [] else TopRecords(config[0]) + Records(config[1..])
  }

  // ---------------------------------------------------------------- how they are written

  /** A token to be written: its text, whether a right brace that ends a generic block stands
  before it, and whether the parser switches to generic values after it. */
  datatype Expect = Expect(kind: Kind, text: string, closes: bool, opens: bool)

  function Spelling(k: Kind): string {
    match k
    case Global => "global"
    case Plugin => "plugin"
    case Type => "type"
    case File => "file"
    case Storage => "storage"
    case Sensor => "sensor"
    case Proto => "proto"
    case Auth => "auth"
    case DataSet => "data_set"
    case Counter => "counter"
    case Derive => "derive"
    case Absolute => "absolute"
    case Gauge => "gauge"
    case Yes => "yes"
    case No => "no"
    case System => "system"
    case Desc => "description"
    case Cf => "cf"
    case Average => "average"
    case Min => "min"
    case Max => "max"
    case Last => "last"
    case Semi => ";"
    case LBrace => "{"
    case RBrace => "}"
    case _ => ""
  }

  function Tok(k: Kind): Expect {
    Expect(k, Spelling(k), false, false)
  }

  function Str(s: string): Expect {
    Expect(Text, s, false, false)
  }

  function Cons(e: Expect, es: seq<Expect>): seq<Expect> {
    [e] + es
  }

  function PluginTypeKind(t: PluginType): Kind {
    match t
    case PStorage => Storage
    case PSensor => Sensor
    case PProto => Proto
    case _ => Auth
  }

  function DataTypeKind(t: DataType): Kind {
    match t
    case DCounter => Counter
    case DDerive => Derive
    case DAbsolute => Absolute
    case _ => Gauge
  }

  function CfKind(c: Consolidation): Kind {
    match c
    case CAverage => Average
    case CMin => Min
    case CMax => Max
    case CLast => Last
  }

  function Stmt(k: Kind, arg: Expect): seq<Expect> {
    Cons(Tok(k), Cons(arg, [Tok(Semi)]))
  }

  function PluginStmtToks(s: PluginStmt): seq<Expect> {
    match s
    case SetType(t) => Stmt(Type, Tok(PluginTypeKind(t)))
    case SetFile(f) => Stmt(File, Str(f))
  }

  function PluginToks(stmts: seq<PluginStmt>): seq<Expect> {
    if stmts == [] then [] else PluginStmtToks(stmts[0]) + PluginToks(stmts[1..])
  }

  function ValueTok(v: Value): Expect {
    match v
    case TextValue(t) => Str(t)
    case NumberValue(d) => Expect(Number, d, false, false)
    case YesValue => Tok(Yes)
    case NoValue => Tok(No)
    case StaleYes(t) => Expect(Yes, t, false, false)
    case StaleNo(t) => Expect(No, t, false, false)
  }

  function ValueToks(values: seq<(string, Value)>): seq<Expect> {
    if values == [] then []
    else
      Cons(Expect(Word, values[0].0, false, false), Cons(ValueTok(values[0].1), [Tok(Semi)]))
      + ValueToks(values[1..])
  }

  function InstanceToks(k: Kind, name: string, plugin: string, values: seq<(string, Value)>): seq<Expect> {
    Cons(Tok(k), Cons(Str(name), Cons(Tok(Type), Cons(Str(plugin), Cons(Tok(LBrace).(opens := true),
      ValueToks(values) + [Tok(Semi).(closes := true)])))))
  }

  function GlobalEntryToks(e: GlobalEntry): seq<Expect> {
    match e
    case PluginEntry(name, stmts) =>
      Cons(Tok(Plugin), Cons(Str(name), Cons(Tok(LBrace), PluginToks(stmts) + Cons(Tok(RBrace), [Tok(Semi)]))))
    case StorageEntry(name, plugin, values) => InstanceToks(Storage, name, plugin, values)
    case SensorEntry(name, plugin, values) => InstanceToks(Sensor, name, plugin, values)
  }

  function GlobalToks(es: seq<GlobalEntry>): seq<Expect> {
    if es == [] then [] else GlobalEntryToks(es[0]) + GlobalToks(es[1..])
  }

  function DataStmtToks(s: DataStmt): seq<Expect> {
    match s
    case SetDataType(t) => Stmt(Type, Tok(DataTypeKind(t)))
    case SetCf(c) => Stmt(Cf, Tok(CfKind(c)))
    case SetSensor(n) => Stmt(Sensor, Str(n))
    case SetStorage(n) => Stmt(Storage, Str(n))
    case SetDesc(d) => Stmt(Desc, Str(d))
  }

  function DataToks(stmts: seq<DataStmt>): seq<Expect> {
    if stmts == [] then [] else DataStmtToks(stmts[0]) + DataToks(stmts[1..])
  }

  function SystemEntryToks(e: SystemEntry): seq<Expect> {
    match e
    case DataEntry(name, stmts) =>
      Cons(Tok(Kind.DataSet), Cons(Str(name), Cons(Tok(LBrace), DataToks(stmts) + Cons(Tok(RBrace), [Tok(Semi)]))))
    case DescEntry(d) => Stmt(Desc, Str(d))
  }

  function SystemToks(es: seq<SystemEntry>): seq<Expect> {
    if es == [] then [] else SystemEntryToks(es[0]) + SystemToks(es[1..])
  }

  function TopToks(e: TopEntry): seq<Expect> {
    match e
    case GlobalSection(es) =>
      Cons(Tok(Global), Cons(Tok(LBrace), GlobalToks(es) + Cons(Tok(RBrace), [Tok(Semi)])))
    case SystemSection(name, es) =>
      Cons(Tok(Kind.System), Cons(Str(name), Cons(Tok(LBrace), SystemToks(es) + Cons(Tok(RBrace), [Tok(Semi)]))))
  }

  function Toks(config: seq<TopEntry>): seq<Expect> {
    if config == [] then [] else TopToks(config[0]) + Toks(config[1..])
  }

  // ---------------------------------------------------------------- well-formed configurations

  /** A string between quotes: the scanner gives no token for an empty one, and none can hold a
  quote, a newline or a NUL. */
  predicate IsQuoted(s: string) {
    s != "" && forall i :: 0 <= i < |s| ==> IsQuotable(s[i]) && s[i] != '\0'
  }

  predicate ValueOk(v: (string, Value)) {
    && IsIdentifier(v.0) && v.0 != "yes" && v.0 != "no" && !v.1.StaleYes? && !v.1.StaleNo?
    && (v.1.TextValue? ==> IsQuoted(v.1.text))
    && (v.1.NumberValue? ==> v.1.digits != "" && forall i :: 0 <= i < |v.1.digits| ==> IsNumeral(v.1.digits[i]))
  }

  /** What a storage or sensor needs beside its spelling: without a value, adding it follows a
  null pointer. */
  predicate Valued(e: GlobalEntry) {
    e.PluginEntry? || e.values != []
  }

  predicate SectionValued(e: TopEntry) {
    e.GlobalSection? ==> forall i :: 0 <= i < |e.globals| ==> Valued(e.globals[i])
  }

  predicate AllValued(config: seq<TopEntry>) {
    forall i :: 0 <= i < |config| ==> SectionValued(config[i])
  }

  predicate GlobalOk(e: GlobalEntry) {
    && IsQuoted(e.name)
    && match e
       case PluginEntry(_, stmts) =>
         forall i :: 0 <= i < |stmts| ==>
           if stmts[i].SetType? then stmts[i].ptype != PNone else IsQuoted(stmts[i].file)
       case _ => IsQuoted(e.plugin) && forall i :: 0 <= i < |e.values| ==> ValueOk(e.values[i])
  }

  predicate DataOk(s: DataStmt) {
    match s
    case SetDataType(t) => t != DNone
    case SetCf(_) => true
    case SetSensor(n) => IsQuoted(n)
    case SetStorage(n) => IsQuoted(n)
    case SetDesc(d) => IsQuoted(d)
  }

  predicate SystemOk(e: SystemEntry) {
    match e
    case DataEntry(name, stmts) => IsQuoted(name) && forall i :: 0 <= i < |stmts| ==> DataOk(stmts[i])
    case DescEntry(d) => IsQuoted(d)
  }

  predicate TopOk(e: TopEntry) {
    match e
    case GlobalSection(es) => forall i :: 0 <= i < |es| ==> GlobalOk(es[i])
    case SystemSection(name, es) => IsQuoted(name) && forall i :: 0 <= i < |es| ==> SystemOk(es[i])
  }

  predicate WellFormed(config: seq<TopEntry>) {
    forall i :: 0 <= i < |config| ==> TopOk(config[i])
  }

  // ---------------------------------------------------------------- what the grammar demands

  // A type statement names a type, whatever the strings and words are.

  predicate GlobalTyped(e: GlobalEntry) {
    e.PluginEntry? ==> forall i :: 0 <= i < |e.stmts| ==> e.stmts[i] != SetType(PNone)
  }

  predicate DataTyped(s: DataStmt) {
    s != SetDataType(DNone)
  }

  predicate SystemTyped(e: SystemEntry) {
    e.DataEntry? ==> forall i :: 0 <= i < |e.stmts| ==> DataTyped(e.stmts[i])
  }

  predicate TopTyped(e: TopEntry) {
    match e
    case GlobalSection(es) => forall i :: 0 <= i < |es| ==> GlobalTyped(es[i])
    case SystemSection(_, es) => forall i :: 0 <= i < |es| ==> SystemTyped(es[i])
  }

  predicate Typed(config: seq<TopEntry>) {
    forall i :: 0 <= i < |config| ==> TopTyped(config[i])
  }

  lemma WellFormedIsTyped(config: seq<TopEntry>)
    requires WellFormed(config)
    ensures Typed(config)
  {
    forall i | 0 <= i < |config|
      ensures TopTyped(config[i])
    {
      assert TopOk(config[i]);
    }
  }
}
