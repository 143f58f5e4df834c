/** Descriptions that name a bound by placeholder, each replaced by the value it stands for. */
module Descriptions {
  import opened Basics
  import opened Sieve

  /** A name in angle brackets and what it stands for. */
  datatype Placeholder = Placeholder(key: string, value: string)

  predicate Bracketed(key: string) {
    && |key| >= 2 && key[0] == '<' && key[|key| - 1] == '>'
    && forall i :: 0 < i < |key| - 1 ==> key[i] != '<' && key[i] != '>'
  }

  predicate Plain(text: string) {
    forall i :: 0 <= i < |text| ==> text[i] != '<' && text[i] != '>'
  }

  /** What the table of placeholders is: bracketed names, none twice, and values without brackets. */
  ghost predicate WellFormed(table: seq<Placeholder>) {
    && (forall i :: 0 <= i < |table| ==> Bracketed(table[i].key) && Plain(table[i].value))
    && forall i, j :: 0 <= i < j < |table| ==> table[i].key != table[j].key
  }

  /** Every occurrence of a key replaced, from left to right, never looking at what was put in. */
  function Replace(text: string, key: string, value: string): string
    requires key != []
    decreases |text|
  {
    if text == [] then []
    else if key <= text then value + Replace(text[|key|..], key, value)
    else [text[0]] + Replace(text[1..], key, value)
  }

  /** A template with each placeholder of the table replaced, one after another. */
  function Resolved(template: string, table: seq<Placeholder>): string
    requires WellFormed(table)
    decreases |table|
  {
    if table == [] then template
    else Resolved(Replace(template, table[0].key, table[0].value), table[1..])
  }

  /** The placeholder a text starts with. */
  function Named(text: string, table: seq<Placeholder>): (named: Option<Placeholder>)
    ensures named.Some? ==> named.value in table && named.value.key <= text
    ensures named.None? ==> forall p :: p in table ==> !(p.key <= text)
    decreases |table|
  {
    if table == [] then None
    else if table[0].key <= text then Some(table[0])
    else Named(text, table[1..])
  }

  /** What a template says: every placeholder in it stands for its value, all at once. */
  ghost function Meaning(template: string, table: seq<Placeholder>): string
    requires WellFormed(table)
    decreases |template|
  {
    if template == [] then []
    else
      match Named(template, table)
      case None => [template[0]] + Meaning(template[1..], table)
      case Some(p) => p.value + Meaning(template[|p.key|..], table)
  }

  /** A value that lies within a key, short of its brackets. */
  ghost predicate Inside(value: string, key: string) {
    exists n :: InsideAt(value, key, n)
  }

  ghost predicate InsideAt(value: string, key: string, n: int) {
    1 <= n && n + |value| < |key| && key[n..n + |value|] == value
  }

  /** No value lies within a key that is replaced after it. */
  ghost predicate Apart(table: seq<Placeholder>) {
    forall i, j :: 0 <= i < j < |table| ==> !Inside(table[i].value, table[j].key)
  }

  // ----- keys in texts -----

  /** A text starts with at most one bracketed name. */
  lemma {:induction false} OneKey(a: string, b: string, text: string)
    requires Bracketed(a) && Bracketed(b) && a <= text && b <= text
    ensures a == b
  {
    assert forall i :: 0 <= i < |a| ==> a[i] == text[i];
    assert forall i :: 0 <= i < |b| ==> b[i] == text[i];
  }

  lemma {:induction false} SameNamed(text: string, other: string, table: seq<Placeholder>, p: Placeholder)
    requires WellFormed(table) && Named(text, table) == Some(p) && p.key <= other
    ensures Named(other, table) == Some(p)
  {
    var q := Named(other, table).value;
    OneKey(p.key, q.key, other);
  }

  lemma ReplaceNext(text: string, key: string, value: string)
    requires text != [] && Bracketed(key) && !(key <= text)
    ensures Replace(text, key, value) == [text[0]] + Replace(text[1..], key, value)
  {
  }

  lemma {:induction false} MeaningNext(template: string, table: seq<Placeholder>)
    requires template != [] && template[0] != '<' && WellFormed(table)
    ensures Meaning(template, table) == [template[0]] + Meaning(template[1..], table)
  {
    hide Named;
    assert Named(template, table).None?;
  }

  lemma {:induction false} FirstOf(plain: string, text: string)
    requires plain != []
    ensures (plain + text)[0] == plain[0] && (plain + text)[1..] == plain[1..] + text
  {
  }

  /** Text without an opening bracket is passed over. */
  lemma {:induction false} ReplacePastPlain(plain: string, text: string, key: string, value: string)
    requires '<' !in plain && Bracketed(key)
    ensures Replace(plain + text, key, value) == plain + Replace(text, key, value)
    decreases |plain|
  {
    if plain == [] {
      assert plain + text == text;
    } else {
      hide Replace;
      FirstOf(plain, text);
      ReplaceNext(plain + text, key, value);
      ReplacePastPlain(plain[1..], text, key, value);
      assert plain == [plain[0]] + plain[1..];
      Regroup([plain[0]], plain[1..], Replace(text, key, value));
    }
  }

  lemma {:induction false} MeaningPastPlain(plain: string, text: string, table: seq<Placeholder>)
    requires '<' !in plain && WellFormed(table)
    ensures Meaning(plain + text, table) == plain + Meaning(text, table)
    decreases |plain|
  {
    if plain == [] {
      assert plain + text == text;
    } else {
      hide Meaning, WellFormed;
      FirstOf(plain, text);
      MeaningNext(plain + text, table);
      MeaningPastPlain(plain[1..], text, table);
      assert plain == [plain[0]] + plain[1..];
      Regroup([plain[0]], plain[1..], Meaning(text, table));
    }
  }

  /** Replacing one name leaves another where it stands. */
  lemma {:induction false} ReplacePastKey(text: string, other: string, key: string, value: string)
    requires Bracketed(other) && Bracketed(key) && other <= text && !(key <= text)
    ensures Replace(text, key, value) == other + Replace(text[|other|..], key, value)
  {
    hide Replace;
    var rest := text[|other|..];
    ReplaceNext(text, key, value);
    assert text[1..] == other[1..] + rest;
    ReplacePastPlain(other[1..], rest, key, value);
    assert other == [text[0]] + other[1..];
    Regroup([text[0]], other[1..], Replace(rest, key, value));
  }

  /** A text with a value in it starts with no name that covers part of the value and not the whole. */
  lemma {:induction false} NoKeyAcross(before: string, value: string, after: string, key: string)
    requires Plain(value) && Bracketed(key) && !Inside(value, key) && 1 <= |before| < |key|
    ensures !(key <= before + value + after)
  {
    var all := before + value + after;
    assert !InsideAt(value, key, |before|);
    assert forall i :: |before| <= i < |before| + |value| ==> all[i] == value[i - |before|];
    assert all[|before|..|before| + |value|] == value;
  }

  /** Replacing makes no name appear that its value does not lie within. */
  lemma {:induction false} NoKeyEmerges(before: string, text: string, p: Placeholder, key: string)
    requires Bracketed(p.key) && Plain(p.value) && Bracketed(key) && !Inside(p.value, key)
    requires 1 <= |before| < |key| && !(key <= before + text)
    ensures !(key <= before + Replace(text, p.key, p.value))
    decreases |text|
  {
    if text == [] {
    } else if p.key <= text {
      var after := Replace(text[|p.key|..], p.key, p.value);
      assert before + Replace(text, p.key, p.value) == before + p.value + after;
      NoKeyAcross(before, p.value, after, key);
    } else {
      var next := before + [text[0]];
      assert before + Replace(text, p.key, p.value) == next + Replace(text[1..], p.key, p.value);
      assert before + text == next + text[1..];
      if |next| < |key| {
        NoKeyEmerges(next, text[1..], p, key);
      }
    }
  }

  // ----- one after another, all at once -----

  ghost predicate Tail(table: seq<Placeholder>, p: Placeholder, rest: seq<Placeholder>) {
    WellFormed(table) && table != [] && p == table[0] && rest == table[1..]
  }

  /** Replacing the first placeholder, then the others, is replacing them all at once. */
  lemma {:induction false} ReplaceFirst(text: string, table: seq<Placeholder>, p: Placeholder, rest: seq<Placeholder>)
    requires Tail(table, p, rest) && WellFormed(rest)
    requires forall q :: q in rest ==> !Inside(p.value, q.key)
    ensures Meaning(Replace(text, p.key, p.value), rest) == Meaning(text, table)
    decreases |text|
  {
    if text == [] {
    } else if p.key <= text {
      assert Named(text, table) == Some(p);
      var after := text[|p.key|..];
      ReplaceFirst(after, table, p, rest);
      MeaningPastPlain(p.value, Replace(after, p.key, p.value), rest);
    } else {
      assert table[1..] == rest;
      assert Named(text, table) == Named(text, rest);
      if Named(text, rest).Some? {
        ReplaceFirstPastKey(text, table, p, rest, Named(text, rest).value);
        ReplaceFirst(text[|Named(text, rest).value.key|..], table, p, rest);
      } else {
        NoneNamed(text, p, rest);
        ReplaceFirst(text[1..], table, p, rest);
      }
    }
  }

  lemma {:induction false} ReplaceFirstPastKey(text: string, table: seq<Placeholder>, p: Placeholder,
          rest: seq<Placeholder>, q: Placeholder)
    requires Tail(table, p, rest) && WellFormed(rest) && text != [] && !(p.key <= text) && Named(text, rest) == Some(q)
    ensures var after := text[|q.key|..];
            Meaning(Replace(text, p.key, p.value), rest) == q.value + Meaning(Replace(after, p.key, p.value), rest)
  {
    assert p == table[0];
    var after := Replace(text[|q.key|..], p.key, p.value);
    ReplacePastKey(text, q.key, p.key, p.value);
    SameNamed(text, q.key + after, rest, q);
    assert (q.key + after)[|q.key|..] == after;
  }

  lemma {:induction false} NoneNamed(text: string, p: Placeholder, rest: seq<Placeholder>)
    requires Bracketed(p.key) && Plain(p.value) && WellFormed(rest)
    requires text != [] && !(p.key <= text) && Named(text, rest).None?
    requires forall q :: q in rest ==> !Inside(p.value, q.key)
    ensures Named(Replace(text, p.key, p.value), rest).None?
  {
    var replaced := Replace(text, p.key, p.value);
    assert [text[0]] + text[1..] == text;
    forall q | q in rest ensures !(q.key <= replaced) {
      NoKeyEmerges([text[0]], text[1..], p, q.key);
    }
  }

  /** Replaced one after another, placeholders whose values lie within no later key come to mean
      what the template says. */
  lemma {:induction false} ResolvedMeans(template: string, table: seq<Placeholder>)
    requires WellFormed(table) && Apart(table)
    ensures Resolved(template, table) == Meaning(template, table)
    decreases |table|
  {
    if table == [] {
      NoTable(template);
    } else {
      var p, rest := table[0], table[1..];
      assert forall i :: 0 <= i < |rest| ==> rest[i] == table[i + 1];
      ResolvedMeans(Replace(template, p.key, p.value), rest);
      ReplaceFirst(template, table, p, rest);
    }
  }

  lemma {:induction false} NoTable(template: string)
    ensures Meaning(template, []) == template
    decreases |template|
  {
    if template != [] {
      NoTable(template[1..]);
    }
  }

  // ----- and exactly then -----

  /** The start of one name, broken off by another, is no name. */
  lemma {:induction false} NoneOpens(key: string, n: nat, text: string, other: string)
    requires Bracketed(key) && 1 <= n < |key| && text != [] && text[0] == '<' && Bracketed(other)
    ensures !(other <= key[..n] + text)
  {
    var all := key[..n] + text;
    assert all[n] == '<';
    assert forall i :: 0 < i < n ==> all[i] == key[i];
  }

  lemma {:induction false} ReplacePastOpening(key: string, n: nat, text: string, other: string, value: string)
    requires Bracketed(key) && 1 <= n < |key| && text != [] && text[0] == '<' && Bracketed(other)
    ensures Replace(key[..n] + text, other, value) == key[..n] + Replace(text, other, value)
  {
    hide Replace;
    var first, plain := key[0], key[1..n];
    assert key[..n] == [first] + plain;
    NoneOpens(key, n, text, other);
    ReplacePastPlain(plain, text, other, value);
    hide Bracketed;
    Regroup([first], plain, text);
    ReplacePastFirst(first, plain + text, other, value);
    Regroup([first], plain, Replace(text, other, value));
  }

  lemma {:induction false} ReplacePastFirst(first: char, rest: string, key: string, value: string)
    requires key != [] && !(key <= [first] + rest)
    ensures Replace([first] + rest, key, value) == [first] + Replace(rest, key, value)
  {
    assert ([first] + rest)[1..] == rest;
  }

  lemma {:induction false} MeaningPastOpening(key: string, n: nat, text: string, table: seq<Placeholder>)
    requires Bracketed(key) && 1 <= n < |key| && text != [] && text[0] == '<' && WellFormed(table)
    ensures Meaning(key[..n] + text, table) == key[..n] + Meaning(text, table)
  {
    hide Meaning, Named;
    var first, plain := key[0], key[1..n];
    assert key[..n] == [first] + plain;
    forall p | p in table ensures !(p.key <= key[..n] + text) {
      NoneOpens(key, n, text, p.key);
    }
    MeaningPastPlain(plain, text, table);
    hide Bracketed, WellFormed;
    Regroup([first], plain, text);
    MeaningPastFirst(first, plain + text, table);
    Regroup([first], plain, Meaning(text, table));
  }

  lemma {:induction false} MeaningPastFirst(first: char, rest: string, table: seq<Placeholder>)
    requires WellFormed(table) && forall p :: p in table ==> !(p.key <= [first] + rest)
    ensures Meaning([first] + rest, table) == [first] + Meaning(rest, table)
  {
    assert ([first] + rest)[1..] == rest;
  }

  /** Text that opens no name is left as it is. */
  lemma {:induction false} NothingToReplace(text: string, key: string, value: string)
    requires '<' !in text && Bracketed(key)
    ensures Replace(text, key, value) == text
  {
    ReplacePastPlain(text, [], key, value);
    assert text + [] == text;
  }

  /** Where a name starts a text, replacing it, or another, past it nothing to replace. */
  lemma {:induction false} ReplaceAtKey(key: string, after: string, other: string, value: string)
    requires Bracketed(key) && Bracketed(other) && '<' !in after
    ensures Replace(key + after, other, value) == (if other == key then value else key) + after
  {
    var text := key + after;
    assert text[|key|..] == after && key <= text;
    NothingToReplace(after, other, value);
    if other <= text {
      OneKey(key, other, text);
    } else {
      ReplacePastKey(text, key, other, value);
    }
  }

  lemma {:induction false} NamedIs(text: string, table: seq<Placeholder>, i: nat)
    requires WellFormed(table) && i < |table| && table[i].key <= text
    ensures Named(text, table) == Some(table[i])
  {
    OneKey(Named(text, table).value.key, table[i].key, text);
  }

  /** Placeholders that change nothing in a text can be passed over. */
  lemma {:induction false} SkipUnchanged(text: string, table: seq<Placeholder>, n: nat)
    requires WellFormed(table) && n <= |table|
    requires forall i :: 0 <= i < n ==> Replace(text, table[i].key, table[i].value) == text
    ensures WellFormed(table[n..]) && Resolved(text, table) == Resolved(text, table[n..])
    decreases n
  {
    if n > 0 {
      var rest := table[1..];
      assert forall i :: 0 <= i < |rest| ==> rest[i] == table[i + 1];
      SkipUnchanged(text, rest, n - 1);
      assert rest[n - 1..] == table[n..];
    } else {
      assert table[0..] == table;
    }
  }

  /** A template in which one name, broken off by another, becomes whole when the other is replaced. */
  ghost function Broken(table: seq<Placeholder>, i: nat, j: nat, n: nat): string
    requires i < |table| && j < |table| && InsideAt(table[i].value, table[j].key, n)
  {
    table[j].key[..n] + (table[i].key + table[j].key[n + |table[i].value|..])
  }

  lemma {:induction false} Reassembled(value: string, key: string, n: nat)
    requires Bracketed(key) && InsideAt(value, key, n)
    ensures key == key[..n] + (value + key[n + |value|..]) && '<' !in key[n + |value|..]
  {
    assert key == key[..n] + key[n..];
    assert key[n..] == key[n..n + |value|] + key[n + |value|..];
  }

  lemma {:induction false} KeyMeansValue(table: seq<Placeholder>, i: nat, after: string)
    requires WellFormed(table) && i < |table| && '<' !in after
    ensures Meaning(table[i].key + after, table) == table[i].value + after
  {
    var text := table[i].key + after;
    NamedIs(text, table, i);
    assert text[|table[i].key|..] == after;
    PlainMeansItself(after, table);
  }

  lemma {:induction false} BrokenMeans(table: seq<Placeholder>, i: nat, j: nat, n: nat)
    requires WellFormed(table) && i < j < |table| && InsideAt(table[i].value, table[j].key, n)
    ensures Meaning(Broken(table, i, j, n), table) == table[j].key
  {
    hide Meaning, Named;
    var p, key := table[i], table[j].key;
    Reassembled(p.value, key, n);
    var after := key[n + |p.value|..];
    MeaningPastOpening(key, n, p.key + after, table);
    KeyMeansValue(table, i, after);
  }

  lemma {:induction false} PlainMeansItself(text: string, table: seq<Placeholder>)
    requires '<' !in text && WellFormed(table)
    ensures Meaning(text, table) == text
  {
    MeaningPastPlain(text, [], table);
    assert text + [] == text;
  }

  lemma {:induction false} BrokenReplaced(table: seq<Placeholder>, i: nat, j: nat, n: nat, q: Placeholder)
    requires WellFormed(table) && i < j < |table| && InsideAt(table[i].value, table[j].key, n) && Bracketed(q.key)
    ensures q == table[i] ==> Replace(Broken(table, i, j, n), q.key, q.value) == table[j].key
    ensures q.key != table[i].key ==> Replace(Broken(table, i, j, n), q.key, q.value) == Broken(table, i, j, n)
  {
    hide Replace;
    var p, key := table[i], table[j].key;
    Reassembled(p.value, key, n);
    var after := key[n + |p.value|..];
    ReplacePastOpening(key, n, p.key + after, q.key, q.value);
    ReplaceAtKey(p.key, after, q.key, q.value);
  }

  /** Replacing goes on to the name made whole, down to its value. */
  lemma {:induction false} BrokenResolves(table: seq<Placeholder>, i: nat, j: nat, n: nat)
    requires WellFormed(table) && i < j < |table| && InsideAt(table[i].value, table[j].key, n)
    ensures Resolved(Broken(table, i, j, n), table) == table[j].value
  {
    var text, key, value := Broken(table, i, j, n), table[j].key, table[j].value;
    forall m | 0 <= m < i ensures Replace(text, table[m].key, table[m].value) == text {
      BrokenReplaced(table, i, j, n, table[m]);
    }
    SkipUnchanged(text, table, i);
    BrokenReplaced(table, i, j, n, table[i]);
    assert table[i..][1..] == table[i + 1..];
    KeyResolves(table, i + 1, j);
  }

  lemma {:induction false} KeyResolves(table: seq<Placeholder>, i: nat, j: nat)
    requires WellFormed(table) && i <= j < |table|
    ensures WellFormed(table[i..]) && Resolved(table[j].key, table[i..]) == table[j].value
  {
    hide Replace;
    var key, value, between := table[j].key, table[j].value, table[i..];
    assert key + [] == key && value + [] == value;
    forall m | 0 <= m < j - i ensures Replace(key, between[m].key, between[m].value) == key {
      ReplaceAtKey(key, [], between[m].key, between[m].value);
    }
    SkipUnchanged(key, between, j - i);
    assert between[j - i..] == table[j..];
    ReplaceAtKey(key, [], key, value);
    ValueResolves(table, j);
  }

  lemma {:induction false} ValueResolves(table: seq<Placeholder>, j: nat)
    requires WellFormed(table) && j < |table|
    ensures var rest := table[j..][1..]; WellFormed(rest) && Resolved(table[j].value, rest) == table[j].value
  {
    hide Replace;
    var value, rest := table[j].value, table[j..][1..];
    forall m | 0 <= m < |rest| ensures Bracketed(rest[m].key) && Replace(value, rest[m].key, rest[m].value) == value {
      NothingToReplace(value, table[j + 1 + m].key, rest[m].value);
    }
    SkipUnchanged(value, rest, |rest|);
  }

  ghost predicate HoldsOne(value: string, chars: set<char>) {
    exists m :: 0 <= m < |value| && value[m] in chars
  }

  /** Values that each hold a character no key does, as figures and comma-separated lists do, lie
      within none. */
  lemma {:induction false} ForeignValuesApart(table: seq<Placeholder>, foreign: set<char>)
    requires forall i, c :: 0 <= i < |table| && c in foreign ==> c !in table[i].key
    requires forall i :: 0 <= i < |table| ==> HoldsOne(table[i].value, foreign)
    ensures Apart(table)
  {
    forall i, j, n | 0 <= i < j < |table| ensures !InsideAt(table[i].value, table[j].key, n) {
      var value, key := table[i].value, table[j].key;
      var m :| 0 <= m < |value| && value[m] in foreign;
      if 1 <= n && n + |value| < |key| {
        assert key[n..n + |value|][m] == key[n + m];
      }
    }
  }

  /** Replacing one after another says what every template means exactly when no value lies within a
      key replaced after it. */
  lemma {:induction false} ResolvedMeansExactlyWhen(table: seq<Placeholder>)
    requires WellFormed(table)
    ensures (forall template :: Resolved(template, table) == Meaning(template, table)) <==> Apart(table)
  {
    if Apart(table) {
      forall template ensures Resolved(template, table) == Meaning(template, table) {
        ResolvedMeans(template, table);
      }
    } else {
      var i, j :| 0 <= i < j < |table| && Inside(table[i].value, table[j].key);
      var n :| InsideAt(table[i].value, table[j].key, n);
      BrokenMeans(table, i, j, n);
      BrokenResolves(table, i, j, n);
      assert table[j].key[0] == '<';
      assert Resolved(Broken(table, i, j, n), table) != Meaning(Broken(table, i, j, n), table);
    }
  }
}
