/** A todo listing read page by page, each page resuming after the last one's end. */
module TodoPages {
  import opened Basics
  import opened Sieve

  /** A todo at its position in the order todos were first written. */
  datatype Positioned<T> = At(position: nat, todo: T)

  datatype TodoPage<T> = TodoPage(todos: seq<T>, more: bool, cursor: Option<nat>)

  /** As the store lists todos: by position, each its own. */
  ghost predicate Sorted<T>(todos: seq<Positioned<T>>) {
    forall i, j :: 0 <= i < j < |todos| ==> todos[i].position < todos[j].position
  }

  /** How many todos a cursor has gone past. */
  function Resume<T>(todos: seq<Positioned<T>>, after: Option<nat>): (start: nat)
    ensures start <= |todos|
    ensures after.None? ==> start == 0
    ensures after.Some? ==> forall i :: 0 <= i < start ==> todos[i].position <= after.value
    ensures after.Some? && Sorted(todos) ==> forall i :: start <= i < |todos| ==> todos[i].position > after.value
    decreases |todos|
  {
    if after.None? || todos == [] || todos[0].position > after.value then 0
    else 1 + Resume(todos[1..], after)
  }

  /** The todos a caller asked for. */
  function Matching<T>(todos: seq<Positioned<T>>, wanted: T -> bool): seq<Positioned<T>>
    decreases |todos|
  {
    if todos == [] then []
    else (if wanted(todos[0].todo) then [todos[0]] else []) + Matching(todos[1..], wanted)
  }

  /** What one call lists, before it is cut to a page. */
  function Listed<T>(todos: seq<Positioned<T>>, wanted: T -> bool, after: Option<nat>): seq<Positioned<T>> {
    Matching(todos[Resume(todos, after)..], wanted)
  }

  /** The first `size` of a listing. */
  function Shown<T>(listed: seq<Positioned<T>>, size: nat): seq<Positioned<T>> {
    if |listed| <= size then listed else listed[..size]
  }

  function Todos<T>(listed: seq<Positioned<T>>): seq<T> {
    seq(|listed|, i requires 0 <= i < |listed| => listed[i].todo)
  }

  /** A page: the first `size`, whether more follow, and where they do. */
  function PageOf<T>(listed: seq<Positioned<T>>, size: nat): TodoPage<T> {
    var page, more := Shown(listed, size), |listed| > size;
    TodoPage(Todos(page), more, if more && page != [] then Some(page[|page| - 1].position) else None)
  }

  // ----- what a call lists -----

  /** Where in the listing a matching todo is. */
  lemma {:induction false} MatchingAt<T>(todos: seq<Positioned<T>>, wanted: T -> bool, i: nat) returns (k: nat)
    requires i < |Matching(todos, wanted)|
    ensures k < |todos| && todos[k] == Matching(todos, wanted)[i] && wanted(todos[k].todo)
    decreases |todos|
  {
    if wanted(todos[0].todo) && i == 0 {
      k := 0;
    } else {
      k := MatchingAt(todos[1..], wanted, if wanted(todos[0].todo) then i - 1 else i);
      k := k + 1;
    }
  }

  /** Where among the matching a wanted todo is. */
  lemma {:induction false} MatchingHas<T>(todos: seq<Positioned<T>>, wanted: T -> bool, k: nat) returns (i: nat)
    requires k < |todos| && wanted(todos[k].todo)
    ensures i < |Matching(todos, wanted)| && Matching(todos, wanted)[i] == todos[k]
    decreases |todos|
  {
    if k == 0 {
      i := 0;
    } else {
      i := MatchingHas(todos[1..], wanted, k - 1);
      i := if wanted(todos[0].todo) then i + 1 else i;
    }
  }

  lemma {:induction false} MatchingSorted<T>(todos: seq<Positioned<T>>, wanted: T -> bool)
    requires Sorted(todos)
    ensures Sorted(Matching(todos, wanted))
    decreases |todos|
  {
    if todos != [] {
      var rest := Matching(todos[1..], wanted);
      MatchingSorted(todos[1..], wanted);
      forall i | 0 <= i < |rest| ensures todos[0].position < rest[i].position {
        var k := MatchingAt(todos[1..], wanted, i);
        assert todos[k + 1] == rest[i];
      }
    }
  }

  /** A call lists only todos wanted past its cursor, in order. */
  lemma {:induction false} ListedIs<T>(todos: seq<Positioned<T>>, wanted: T -> bool, after: Option<nat>)
    requires Sorted(todos)
    ensures var listed := Listed(todos, wanted, after);
            Sorted(listed) && forall i :: 0 <= i < |listed| ==>
              && listed[i] in todos && wanted(listed[i].todo)
              && (after.Some? ==> listed[i].position > after.value)
  {
    hide Matching;
    var start := Resume(todos, after);
    MatchingSorted(todos[start..], wanted);
    forall i | 0 <= i < |Listed(todos, wanted, after)|
      ensures var todo := Listed(todos, wanted, after)[i];
              todo in todos && wanted(todo.todo) && (after.Some? ==> todo.position > after.value)
    {
      var k := MatchingAt(todos[start..], wanted, i);
      assert todos[start + k] == Listed(todos, wanted, after)[i];
    }
  }

  /** And all of them. */
  lemma {:induction false} ListedHas<T>(todos: seq<Positioned<T>>, wanted: T -> bool, after: Option<nat>, k: nat)
    returns (i: nat)
    requires Sorted(todos) && k < |todos| && wanted(todos[k].todo) && (after.Some? ==> todos[k].position > after.value)
    ensures i < |Listed(todos, wanted, after)| && Listed(todos, wanted, after)[i] == todos[k]
  {
    var start := Resume(todos, after);
    assert todos[start..][k - start] == todos[k];
    i := MatchingHas(todos[start..], wanted, k - start);
  }

  /** A page holds as many as it may of what is listed, from the first on; it says there is more exactly
      when it left some, and has a cursor exactly then: the position of its last. */
  lemma {:induction false} PageSays<T>(listed: seq<Positioned<T>>, size: nat)
    requires size > 0
    ensures var page, n := PageOf(listed, size), if |listed| <= size then |listed| else size;
            && |page.todos| == n && (forall i :: 0 <= i < n ==> page.todos[i] == listed[i].todo)
            && (page.more <==> size < |listed|) && (page.cursor.Some? <==> size < |listed|)
            && (page.more ==> page.cursor == Some(listed[size - 1].position))
  {
  }

  // ----- a listing that stays as it is -----

  /** Resuming is determined by what lies before and past the cursor. */
  lemma {:induction false} ResumeIs<T>(todos: seq<Positioned<T>>, after: nat, start: nat)
    requires start <= |todos|
    requires forall i :: 0 <= i < start ==> todos[i].position <= after
    requires start < |todos| ==> todos[start].position > after
    ensures Resume(todos, Some(after)) == start
    decreases start
  {
    if start > 0 {
      ResumeIs(todos[1..], after, start - 1);
    }
  }

  lemma {:induction false} MatchingOfConcat<T>(a: seq<Positioned<T>>, b: seq<Positioned<T>>, wanted: T -> bool)
    ensures Matching(a + b, wanted) == Matching(a, wanted) + Matching(b, wanted)
    decreases |a|
  {
    if a == [] {
      assert a + b == b;
    } else {
      MatchingOfConcat(a[1..], b, wanted);
      var first, rest := a[0], a[1..] + b;
      var head := if wanted(first.todo) then [first] else [];
      assert a + b == [first] + rest && (a + b)[1..] == rest;
      assert Matching(a + b, wanted) == head + Matching(rest, wanted);
      assert Matching(a, wanted) == head + Matching(a[1..], wanted);
      hide Matching;
      Regroup(head, Matching(a[1..], wanted), Matching(b, wanted));
    }
  }

  /** Filtering and resuming commute. */
  lemma {:induction false} ResumeMatching<T>(todos: seq<Positioned<T>>, wanted: T -> bool, after: Option<nat>)
    requires Sorted(todos)
    ensures Listed(todos, wanted, after) == Matching(todos, wanted)[Resume(Matching(todos, wanted), after)..]
  {
    if after.Some? {
      var start := Resume(todos, after);
      var before, past := Matching(todos[..start], wanted), Matching(todos[start..], wanted);
      MatchingOfConcat(todos[..start], todos[start..], wanted);
      assert todos == todos[..start] + todos[start..];
      forall i | 0 <= i < |before| ensures before[i].position <= after.value {
        var k := MatchingAt(todos[..start], wanted, i);
      }
      if past != [] {
        var k := MatchingAt(todos[start..], wanted, 0);
      }
      ResumeIs(before + past, after.value, |before|);
    }
  }

  /** Resuming where a page ended lists exactly what the page left. */
  lemma {:induction false} ResumeAfterPage<T>(todos: seq<Positioned<T>>, wanted: T -> bool, after: Option<nat>,
          size: nat)
    requires Sorted(todos) && 0 < size < |Listed(todos, wanted, after)|
    ensures PageOf(Listed(todos, wanted, after), size).cursor.Some?
    ensures var listed := Listed(todos, wanted, after);
            Listed(todos, wanted, PageOf(listed, size).cursor) == listed[size..]
  {
    hide Matching, Resume, Listed, Todos;
    var all := Matching(todos, wanted);
    var listed := Listed(todos, wanted, after);
    var cursor := PageOf(listed, size).cursor;
    ResumeMatching(todos, wanted, after);
    ResumeMatching(todos, wanted, cursor);
    MatchingSorted(todos, wanted);
    var start := Resume(all, after);
    assert listed == all[start..];
    assert all[start + size - 1].position == cursor.value;
    ResumeIs(all, cursor.value, start + size);
    assert all[start + size..] == all[start..][size..];
  }

  /** Every page of a listing, asked for one after another. */
  function AllPages<T>(todos: seq<Positioned<T>>, wanted: T -> bool, size: nat, after: Option<nat>): seq<TodoPage<T>>
    requires Sorted(todos) && size > 0
    decreases |Listed(todos, wanted, after)|
  {
    var listed := Listed(todos, wanted, after);
    var page := PageOf(listed, size);
    if page.more then
      ResumeAfterPage(todos, wanted, after, size);
      [page] + AllPages(todos, wanted, size, page.cursor)
    else [page]
  }

  function Glued<T>(pages: seq<TodoPage<T>>): seq<T>
    decreases |pages|
  {
    if pages == [] then [] else pages[0].todos + Glued(pages[1..])
  }

  /** The pages of a listing that stays as it is, glued together, are the todos asked for, each once
      and in order, and only the last page says there is no more. */
  lemma {:induction false} PagesGlueToListing<T>(todos: seq<Positioned<T>>, wanted: T -> bool, size: nat,
          after: Option<nat>)
    requires Sorted(todos) && size > 0
    ensures var pages := AllPages(todos, wanted, size, after);
            && Glued(pages) == Todos(Listed(todos, wanted, after))
            && pages != [] && !pages[|pages| - 1].more && forall i :: 0 <= i < |pages| - 1 ==> pages[i].more
    decreases |Listed(todos, wanted, after)|
  {
    hide Matching, Resume, Listed, Sorted, Todos, Glued;
    var listed := Listed(todos, wanted, after);
    var page := PageOf(listed, size);
    if page.more {
      ResumeAfterPage(todos, wanted, after, size);
      PagesGlueToListing(todos, wanted, size, page.cursor);
      TodosSplit(listed, size);
      GluedNext(page, AllPages(todos, wanted, size, page.cursor));
    } else {
      GluedNext(page, []);
      assert [page] + [] == [page] && page.todos + [] == page.todos;
    }
  }

  lemma {:induction false} TodosSplit<T>(listed: seq<Positioned<T>>, size: nat)
    requires size <= |listed|
    ensures Todos(listed) == Todos(listed[..size]) + Todos(listed[size..])
  {
  }

  lemma {:induction false} GluedNext<T>(page: TodoPage<T>, rest: seq<TodoPage<T>>)
    ensures Glued([page] + rest) == page.todos + Glued(rest) && Glued<T>([]) == []
  {
    assert ([page] + rest)[1..] == rest;
  }

  // ----- a listing that changes between pages -----

  /** One call: the todos as they stand, what is wanted of them as they stand, and a page size. */
  datatype Call<!T> = Call(todos: seq<Positioned<T>>, wanted: T -> bool, size: nat)

  ghost function CursorBefore<T>(calls: seq<Call<T>>, n: nat): Option<nat>
    requires n <= |calls|
    decreases n, 0
  {
    if n == 0 then None else Answer(calls, n - 1).cursor
  }

  ghost function ListedBy<T>(calls: seq<Call<T>>, n: nat): seq<Positioned<T>>
    requires n < |calls|
    decreases n, 1
  {
    Listed(calls[n].todos, calls[n].wanted, CursorBefore(calls, n))
  }

  ghost function Answer<T>(calls: seq<Call<T>>, n: nat): TodoPage<T>
    requires n < |calls|
    decreases n, 2
  {
    PageOf(ListedBy(calls, n), calls[n].size)
  }

  /** Calls that page through: each resumes where the last page ended, and all but the last have more. */
  ghost predicate Paging<T>(calls: seq<Call<T>>) {
    && (forall n :: 0 <= n < |calls| ==> Sorted(calls[n].todos) && calls[n].size > 0)
    && (forall n :: 0 <= n < |calls| - 1 ==> Answer(calls, n).more)
  }

  /** The todos call `n` answers with, at their positions. */
  ghost function ShownBy<T>(calls: seq<Call<T>>, n: nat): seq<Positioned<T>>
    requires n < |calls|
  {
    Shown(ListedBy(calls, n), calls[n].size)
  }

  lemma {:induction false} OnePage<T>(call: Call<T>, before: Option<nat>)
    requires Sorted(call.todos) && call.size > 0
    ensures var listed := Listed(call.todos, call.wanted, before);
            var shown, page := Shown(listed, call.size), PageOf(listed, call.size);
            && Sorted(shown) && page.todos == Todos(shown)
            && (page.more ==> shown != [] && page.cursor.Some?)
            && forall i :: 0 <= i < |shown| ==>
                 && (before.Some? ==> before.value < shown[i].position)
                 && (page.more ==> shown[i].position <= page.cursor.value)
  {
    hide Listed, Todos;
    ListedIs(call.todos, call.wanted, before);
  }

  /** A page lies past the cursor it was asked with, and up to the cursor it answers with. */
  lemma {:induction false} PageBetweenCursors<T>(calls: seq<Call<T>>, n: nat)
    requires Paging(calls) && n < |calls|
    ensures Sorted(ShownBy(calls, n)) && Answer(calls, n).todos == Todos(ShownBy(calls, n))
    ensures forall i :: 0 <= i < |ShownBy(calls, n)| ==>
      && (CursorBefore(calls, n).Some? ==> CursorBefore(calls, n).value < ShownBy(calls, n)[i].position)
      && (Answer(calls, n).more ==>
            Answer(calls, n).cursor.Some? && ShownBy(calls, n)[i].position <= Answer(calls, n).cursor.value)
    ensures Answer(calls, n).more ==> ShownBy(calls, n) != [] && Answer(calls, n).cursor.Some?
  {
    hide Listed, Todos, Shown, PageOf, Sorted, CursorBefore;
    OnePage(calls[n], CursorBefore(calls, n));
  }

  lemma {:induction false} LaterPagesLaterPositions<T>(calls: seq<Call<T>>, m: nat, n: nat, i: nat, j: nat)
    requires Paging(calls) && m < n < |calls| && i < |ShownBy(calls, m)| && j < |ShownBy(calls, n)|
    ensures ShownBy(calls, m)[i].position < ShownBy(calls, n)[j].position
    decreases n
  {
    hide Listed, Todos, Shown, PageOf, Sorted, ShownBy, Answer;
    PageBetweenCursors(calls, n);
    PageBetweenCursors(calls, n - 1);
    if m < n - 1 {
      LaterPagesLaterPositions(calls, m, n - 1, i, |ShownBy(calls, n - 1)| - 1);
    } else {
      PageBetweenCursors(calls, m);
    }
  }

  /** Whatever is deleted, added or changed between pages, no todo is listed twice: positions only
      grow, within a page and from page to page. */
  lemma {:induction false} NeverTwice<T>(calls: seq<Call<T>>, m: nat, n: nat, i: nat, j: nat)
    requires Paging(calls) && m <= n < |calls| && i < |ShownBy(calls, m)| && j < |ShownBy(calls, n)|
    requires m < n || i < j
    ensures ShownBy(calls, m)[i].position < ShownBy(calls, n)[j].position
  {
    if m < n {
      LaterPagesLaterPositions(calls, m, n, i, j);
    } else {
      PageBetweenCursors(calls, n);
    }
  }

  /** `position` holds a wanted todo whenever it is looked at. */
  ghost predicate Throughout<T>(calls: seq<Call<T>>, position: nat) {
    forall n :: 0 <= n < |calls| ==> HoldsWanted(calls[n], position)
  }

  ghost predicate HoldsWanted<T>(call: Call<T>, position: nat) {
    exists i :: 0 <= i < |call.todos| && call.todos[i].position == position && call.wanted(call.todos[i].todo)
  }

  ghost predicate ListsPosition<T>(shown: seq<Positioned<T>>, position: nat) {
    exists i :: 0 <= i < |shown| && shown[i].position == position
  }

  ghost predicate ShownAt<T>(calls: seq<Call<T>>, n: nat, position: nat)
    requires n < |calls|
  {
    ListsPosition(ShownBy(calls, n), position)
  }

  /** A todo there all along is on page `n`, or was shown before, or lies past the page. */
  lemma {:induction false} ShownOrAhead<T>(calls: seq<Call<T>>, n: nat, position: nat)
    requires Paging(calls) && n < |calls| && Throughout(calls, position)
    ensures (exists m :: 0 <= m <= n && ShownAt(calls, m, position)) ||
            (Answer(calls, n).more && Answer(calls, n).cursor.value < position)
    decreases n
  {
    hide Answer, ShownAt, HoldsWanted, Sorted;
    if n > 0 {
      PageBetweenCursors(calls, n - 1);
      ShownOrAhead(calls, n - 1, position);
    }
    if n == 0 || CursorBefore(calls, n).value < position {
      WantedIsListed(calls, n, position);
    }
  }

  /** A wanted todo past the cursor is on the page, or past it. */
  lemma {:induction false} WantedIsListed<T>(calls: seq<Call<T>>, n: nat, position: nat)
    requires Paging(calls) && n < |calls| && HoldsWanted(calls[n], position)
    requires CursorBefore(calls, n).Some? ==> CursorBefore(calls, n).value < position
    ensures ShownAt(calls, n, position) || (Answer(calls, n).more && Answer(calls, n).cursor.value < position)
  {
    hide Listed, Todos, Shown, PageOf, Sorted, CursorBefore, HoldsWanted, ListsPosition;
    WantedOnPage(calls[n], CursorBefore(calls, n), position);
  }

  lemma {:induction false} WantedOnPage<T>(call: Call<T>, before: Option<nat>, position: nat)
    requires Sorted(call.todos) && call.size > 0 && HoldsWanted(call, position)
    requires (before.Some? ==> before.value < position)
    ensures var listed := Listed(call.todos, call.wanted, before);
            var shown, page := Shown(listed, call.size), PageOf(listed, call.size);
            || ListsPosition(shown, position)
            || (page.more && page.cursor.Some? && page.cursor.value < position)
  {
    hide Listed, Todos;
    var i :| 0 <= i < |call.todos| && call.todos[i].position == position && call.wanted(call.todos[i].todo);
    ListedIs(call.todos, call.wanted, before);
    var k := ListedHas(call.todos, call.wanted, before, i);
    var shown := Shown(Listed(call.todos, call.wanted, before), call.size);
    if k < |shown| {
      assert shown[k].position == position;
    }
  }

  /** Once a page says there is no more, every todo that was there and wanted all along has been
      listed, and by NeverTwice once. */
  lemma {:induction false} NothingMissed<T>(calls: seq<Call<T>>, position: nat)
    requires Paging(calls) && calls != [] && !Answer(calls, |calls| - 1).more && Throughout(calls, position)
    ensures exists n :: 0 <= n < |calls| && ShownAt(calls, n, position)
  {
    ShownOrAhead(calls, |calls| - 1, position);
  }

  /** Every position any of the calls found a todo at. */
  ghost function Ever<T>(calls: seq<Call<T>>): set<nat> {
    set n, i | 0 <= n < |calls| && 0 <= i < |calls[n].todos| :: calls[n].todos[i].position
  }

  ghost function UpTo(positions: set<nat>, cursor: Option<nat>): set<nat> {
    set p | p in positions && cursor.Some? && p <= cursor.value
  }

  /** Each page with more to follow passes a position no page passed before, so there are at most as
      many of them as positions that ever held a todo: paging ends unless todos are added for ever. */
  lemma {:induction false} PagingEnds<T>(calls: seq<Call<T>>)
    requires Paging(calls)
    ensures |calls| <= |Ever(calls)| + 1
  {
    if calls != [] {
      PagesPass(calls, |calls| - 1);
      SubsetSize(UpTo(Ever(calls), CursorBefore(calls, |calls| - 1)), Ever(calls));
    }
  }

  lemma {:induction false} PagesPass<T>(calls: seq<Call<T>>, n: nat)
    requires Paging(calls) && n < |calls|
    ensures n <= |UpTo(Ever(calls), CursorBefore(calls, n))|
    decreases n
  {
    if n > 0 {
      var k := n - 1;
      PagesPass(calls, k);
      CursorMoves(calls, k);
      var before, after := CursorBefore(calls, k), CursorBefore(calls, n);
      assert after.value !in UpTo(Ever(calls), before);
      SubsetSize(UpTo(Ever(calls), before) + {after.value}, UpTo(Ever(calls), after));
    }
  }

  /** A page with more to follow moves the cursor on, to the position of a todo it found. */
  lemma {:induction false} CursorMoves<T>(calls: seq<Call<T>>, k: nat)
    requires Paging(calls) && k < |calls| - 1
    ensures var before, after := CursorBefore(calls, k), CursorBefore(calls, k + 1);
            after.Some? && after.value in Ever(calls) && (before.Some? ==> before.value < after.value)
  {
    var call, listed, shown := calls[k], ListedBy(calls, k), ShownBy(calls, k);
    PageBetweenCursors(calls, k);
    ListedIs(call.todos, call.wanted, CursorBefore(calls, k));
    var last := |shown| - 1;
    assert shown[last] == listed[last] && CursorBefore(calls, k + 1) == Some(shown[last].position);
    var i :| 0 <= i < |call.todos| && call.todos[i] == shown[last];
  }
}
