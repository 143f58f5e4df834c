/** The table of placeholders the tool descriptions use, for any values of the kind it holds. */
module PlaceholderTable {
  import opened Descriptions

  // The names, in the order they are replaced.

  function ProcessNames(): seq<string> {
    ["event-kinds", "split-directions", "split-min-half-cols", "process-name-max-chars", "processes-max",
     "env-vars-max", "declared-ports-max"]
  }

  function RecordNames(): seq<string> {
    ["env-name-max-chars", "env-value-max-chars", "locks-per-session-max", "max-stop-grace-s",
     "listed-value-chars", "note-key-max-chars", "note-body-max-chars"]
  }

  function TextNames(): seq<string> {
    ["kv-key-max-chars", "kv-value-max-chars", "todo-title-max-chars", "todo-deps-max", "command-max-chars",
     "description-max-chars", "lock-name-max-chars"]
  }

  function LogNames(): seq<string> {
    ["call-bound-s", "default-wait-s", "failure-tail-lines", "default-log-lines", "max-log-lines",
     "default-log-bytes", "max-log-bytes"]
  }

  function LeaseNames(): seq<string> {
    ["default-lease-s", "max-lease-s", "default-ttl-s", "max-ttl-s", "default-list-limit", "max-list-limit",
     "events-without-since"]
  }

  function Names(): seq<string> {
    ProcessNames() + RecordNames() + TextNames() + (LogNames() + LeaseNames())
  }

  predicate Lettered(name: string) {
    forall c :: c in name ==> 'a' <= c <= 'z' || c == '-'
  }

  /** A number in figures. */
  predicate Figures(value: string) {
    value != [] && forall k :: 0 <= k < |value| ==> '0' <= value[k] <= '9'
  }

  /** Several words joined by commas. */
  predicate Listing(value: string) {
    Plain(value) && ',' in value
  }

  /** A character only values hold. */
  predicate Sign(c: char) {
    c == ',' || '0' <= c <= '9'
  }

  function Key(name: string): string {
    ['<'] + name + ['>']
  }

  function Table(values: seq<string>): seq<Placeholder>
    requires |values| == |Names()|
  {
    seq(|Names()|, i requires 0 <= i < |Names()| => Placeholder(Key(Names()[i]), values[i]))
  }

  predicate Differ(names: seq<string>) {
    forall i, j :: 0 <= i < j < |names| ==> names[i] != names[j]
  }

  predicate NoneShared(names: seq<string>, others: seq<string>) {
    forall i, j :: 0 <= i < |names| && 0 <= j < |others| ==> names[i] != others[j]
  }

  lemma DifferTogether(names: seq<string>, others: seq<string>)
    requires Differ(names) && Differ(others) && NoneShared(names, others)
    ensures Differ(names + others)
  {
  }

  lemma EarlierDiffer()
    ensures Differ(ProcessNames() + RecordNames() + TextNames())
  {
  }

  lemma LaterDiffer()
    ensures Differ(LogNames() + LeaseNames())
  {
  }

  lemma EarlierNotLater()
    ensures NoneShared(ProcessNames() + RecordNames() + TextNames(), LogNames() + LeaseNames())
  {
  }

  lemma {:induction false} NamesDiffer()
    ensures Differ(Names())
  {
    hide ProcessNames, RecordNames, TextNames, LogNames, LeaseNames, Differ, NoneShared;
    EarlierDiffer();
    LaterDiffer();
    EarlierNotLater();
    DifferTogether(ProcessNames() + RecordNames() + TextNames(), LogNames() + LeaseNames());
  }

  predicate AllLettered(names: seq<string>) {
    forall i :: 0 <= i < |names| ==> Lettered(names[i])
  }

  lemma ProcessNamesLettered()
    ensures AllLettered(ProcessNames())
  {
  }

  lemma RecordNamesLettered()
    ensures AllLettered(RecordNames())
  {
  }

  lemma TextNamesLettered()
    ensures AllLettered(TextNames())
  {
  }

  lemma LogNamesLettered()
    ensures AllLettered(LogNames())
  {
  }

  lemma LeaseNamesLettered()
    ensures AllLettered(LeaseNames())
  {
  }

  lemma {:induction false} NamesLettered()
    ensures AllLettered(Names())
  {
    hide Lettered, ProcessNames, RecordNames, TextNames, LogNames, LeaseNames;
    ProcessNamesLettered();
    RecordNamesLettered();
    TextNamesLettered();
    LogNamesLettered();
    LeaseNamesLettered();
  }

  lemma {:induction false} KeyOf(name: string, other: string)
    requires Lettered(name)
    ensures Bracketed(Key(name)) && (forall c :: c in Key(name) ==> c == '<' || c == '>' || c == '-' || 'a' <= c <= 'z')
    ensures Key(name) == Key(other) ==> name == other
  {
    assert Key(name)[1..|name| + 1] == name && Key(other)[1..|other| + 1] == other;
    forall i | 0 < i < |name| + 1 ensures Key(name)[i] in name {
      assert Key(name)[i] == name[i - 1];
    }
  }

  /** Whatever numbers and lists they stand for, the placeholders of the table are bracketed, differ,
      and none of their values lies within a key: no replacement completes another placeholder. */
  lemma {:induction false} TableApart(values: seq<string>)
    requires |values| == |Names()| && forall i :: 0 <= i < |values| ==> Figures(values[i]) || Listing(values[i])
    ensures WellFormed(Table(values)) && Apart(Table(values))
  {
    hide Lettered, Bracketed, Key, Names;
    var table := Table(values);
    NamesDiffer();
    NamesLettered();
    forall i, j | 0 <= i < |Names()| && 0 <= j < |Names()|
      ensures Bracketed(Key(Names()[i])) && (Key(Names()[i]) == Key(Names()[j]) ==> Names()[i] == Names()[j])
    {
      KeyOf(Names()[i], Names()[j]);
    }
    var foreign := set c: char | Sign(c);
    forall i, c | 0 <= i < |table| && c in foreign ensures c !in table[i].key {
      KeyOf(Names()[i], Names()[i]);
    }
    forall i | 0 <= i < |table| ensures HoldsOne(table[i].value, foreign) {
      var value := values[i];
      assert table[i].value == value;
      var m := if Figures(value) then 0 else var m :| 0 <= m < |value| && value[m] == ','; m;
      assert value[m] in foreign;
    }
    ForeignValuesApart(table, foreign);
  }

  /** So every tool description comes to mean what its template says. */
  lemma {:induction false} DescriptionsMean(template: string, values: seq<string>)
    requires |values| == |Names()| && forall i :: 0 <= i < |values| ==> Figures(values[i]) || Listing(values[i])
    ensures WellFormed(Table(values)) && Resolved(template, Table(values)) == Meaning(template, Table(values))
  {
    hide WellFormed, Apart, Table, Names;
    TableApart(values);
    ResolvedMeans(template, Table(values));
  }
}
