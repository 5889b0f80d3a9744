/** The merged event stream of an AgentFS: two sources, one numbering, and readers that page through it. */
module Events {
  import opened Wrappers
  import opened Ordering
  import opened Strings

  /** `body` stands for every field besides the identity, the number and the time. */
  datatype Event = Event(id: string, number: int, createdAt: int, body: string)

  /** What two copies of one event must agree on. */
  function Core(e: Event): Event {
    e.(number := 0)
  }

  ghost predicate Agree(events: seq<Event>) {
    forall x, y :: x in events && y in events && x.id == y.id ==> Core(x) == Core(y)
  }

  function Ids(events: seq<Event>): set<string> {
    set e | e in events :: e.id
  }

  /** Time first, then id. */
  predicate NotLater(x: Event, y: Event) {
    x.createdAt < y.createdAt || (x.createdAt == y.createdAt && StringLe(x.id, y.id))
  }

  predicate Earlier(x: Event, y: Event) {
    x.createdAt < y.createdAt || (x.createdAt == y.createdAt && StringLess(x.id, y.id))
  }

  lemma NotLaterIsPreorder()
    ensures Preorder(NotLater)
  {
    StringLeIsPreorder();
  }

  lemma EarlierIsStrict(x: Event, y: Event)
    ensures !(Earlier(x, y) && Earlier(y, x))
    ensures NotLater(x, y) && x.id != y.id ==> Earlier(x, y)
  {
    if StringLess(x.id, y.id) && StringLess(y.id, x.id) {
      StringLessTransitive(x.id, y.id, x.id);
    }
    StringLessIrreflexive(x.id);
  }

  // ----- Merging -----

  /** Of two copies, the one with the smaller positive number stays. */
  function Keep(existing: Event, event: Event): Event {
    if event.number > 0 && (existing.number <= 0 || event.number <= existing.number) then event else existing
  }

  function ById(events: seq<Event>): map<string, Event> {
    if events == [] then map[]
    else
      var before, e := ById(events[..|events| - 1]), events[|events| - 1];
      before[e.id := if e.id in before then Keep(before[e.id], e) else e]
  }

  /** A map's values in key order. */
  function Values(ids: seq<string>, byId: map<string, Event>): (r: seq<Event>)
    requires forall id :: id in ids ==> id in byId
    ensures |r| == |ids| && forall i :: 0 <= i < |ids| ==> r[i] == byId[ids[i]]
  {
    seq(|ids|, i requires 0 <= i < |ids| => byId[ids[i]])
  }

  function InOrder(events: seq<Event>): seq<Event> {
    NotLaterIsPreorder();
    var byId := ById(events);
    Sort(NotLater, Values(SortedStrings(byId.Keys), byId))
  }

  function Numbered(events: seq<Event>): (r: seq<Event>)
    ensures |r| == |events| && forall i :: 0 <= i < |events| ==> r[i] == events[i].(number := i + 1)
  {
    seq(|events|, i requires 0 <= i < |events| => events[i].(number := i + 1))
  }

  function Merged(events: seq<Event>): seq<Event> {
    Numbered(InOrder(events))
  }

  method MergedAgentfsEvents(events: seq<Event>) returns (r: seq<Event>)
    ensures r == Merged(events)
  {
    var byId: map<string, Event> := map[];
    var i := 0;
    while i < |events|
      invariant 0 <= i <= |events|
      invariant byId == ById(events[..i])
    {
      assert events[..i + 1][..i] == events[..i];
      var e := events[i];
      byId := byId[e.id := if e.id in byId then Keep(byId[e.id], e) else e];
      i := i + 1;
    }
    assert events[..i] == events;
    NotLaterIsPreorder();
    r := Sort(NotLater, Values(SortedStrings(byId.Keys), byId));
    i := 0;
    ghost var sorted := r;
    while i < |r|
      invariant 0 <= i <= |r| == |sorted|
      invariant forall j :: 0 <= j < i ==> r[j] == sorted[j].(number := j + 1)
      invariant forall j :: i <= j < |r| ==> r[j] == sorted[j]
    {
      r := r[i := r[i].(number := i + 1)];
      i := i + 1;
    }
    assert r == Numbered(sorted);
  }

  lemma {:induction false} ByIdMeaning(events: seq<Event>)
    ensures ById(events).Keys == Ids(events)
    ensures forall id :: id in ById(events) ==> ById(events)[id].id == id && ById(events)[id] in events
  {
    if events != [] {
      ByIdMeaning(events[..|events| - 1]);
      assert events == events[..|events| - 1] + [events[|events| - 1]];
    }
  }

  ghost predicate StrictlySorted(events: seq<Event>) {
    forall i, j :: 0 <= i < j < |events| ==> Earlier(events[i], events[j])
  }

  /** The values of the id map: one per id, each a copy from the input. */
  lemma ValuesMeaning(events: seq<Event>)
    ensures var byId := ById(events);
            var values := Values(SortedStrings(byId.Keys), byId);
            && OnePerId(values) && Ids(values) == Ids(events) && forall e :: e in values ==> e in events
  {
    ByIdMeaning(events);
    hide ById;
    var byId := ById(events);
    ValuesOf(SortedStrings(byId.Keys), byId);
  }

  lemma ValuesOf(ids: seq<string>, byId: map<string, Event>)
    requires (forall id :: id in ids <==> id in byId) && (forall id :: id in byId ==> byId[id].id == id)
    requires forall i, j :: 0 <= i < j < |ids| ==> ids[i] != ids[j]
    ensures OnePerId(Values(ids, byId)) && Ids(Values(ids, byId)) == byId.Keys
    ensures forall e :: e in Values(ids, byId) ==> exists id :: id in byId && byId[id] == e
  {
    var values := Values(ids, byId);
    forall i, j | 0 <= i < j < |values| ensures values[i].id != values[j].id {
      assert ids[i] in ids && ids[j] in ids;
    }
    forall id | id in byId ensures id in Ids(values) {
      var i :| 0 <= i < |ids| && ids[i] == id;
      assert values[i] in values;
    }
    forall e | e in values ensures e.id in byId && byId[e.id] == e {
      var i :| 0 <= i < |values| && values[i] == e;
      assert ids[i] in ids;
    }
  }

  ghost predicate OnePerId(events: seq<Event>) {
    forall i, j :: 0 <= i < j < |events| ==> events[i].id != events[j].id
  }

  lemma SortOnePerId(values: seq<Event>)
    requires OnePerId(values) && Preorder(NotLater)
    ensures StrictlySorted(Sort(NotLater, values)) && Ids(Sort(NotLater, values)) == Ids(values)
  {
    SortDistinct(NotLater, values);
    var sorted := Sort(NotLater, values);
    forall i, j | 0 <= i < j < |sorted| ensures Earlier(sorted[i], sorted[j]) {
      assert sorted[i] in values && sorted[j] in values && sorted[i] != sorted[j];
      EarlierIsStrict(sorted[i], sorted[j]);
    }
  }

  /** One entry per id, each a copy from the input, in strict (time, id) order. */
  lemma InOrderMeaning(events: seq<Event>)
    ensures StrictlySorted(InOrder(events)) && Ids(InOrder(events)) == Ids(events) && OnePerId(InOrder(events))
    ensures forall e :: e in InOrder(events) ==> e in events
  {
    NotLaterIsPreorder();
    ValuesMeaning(events);
    hide StrictlySorted, Ids, ById, NotLater, Preorder;
    var byId := ById(events);
    var values := Values(SortedStrings(byId.Keys), byId);
    SortOnePerId(values);
    SortedOnePerId(values);
    assert forall e :: e in InOrder(events) <==> e in values;
  }

  lemma SortedOnePerId(values: seq<Event>)
    requires OnePerId(values) && Preorder(NotLater)
    ensures OnePerId(Sort(NotLater, values))
  {
    SortDistinct(NotLater, values);
    var sorted := Sort(NotLater, values);
    forall i, j | 0 <= i < j < |sorted| ensures sorted[i].id != sorted[j].id {
      assert sorted[i] in values && sorted[j] in values && sorted[i] != sorted[j];
    }
  }

  function Cores(events: seq<Event>): (r: seq<Event>)
    ensures |r| == |events| && forall i :: 0 <= i < |events| ==> r[i] == Core(events[i])
  {
    seq(|events|, i requires 0 <= i < |events| => Core(events[i]))
  }

  /** Two strictly sorted lists with the same elements are the same list. */
  lemma {:induction false} StrictUnique(a: seq<Event>, b: seq<Event>)
    requires StrictlySorted(a) && StrictlySorted(b) && forall e :: e in a <==> e in b
    ensures a == b
  {
    if a == [] {
      EmptyOrInhabited(b);
    } else {
      assert a[0] in b && b[0] in b;
      var k :| 0 <= k < |b| && b[k] == a[0];
      var l :| 0 <= l < |a| && a[l] == b[0];
      EarlierIsStrict(a[0], b[0]);
      assert a[0] == b[0];
      forall e ensures e in a[1..] <==> e in b[1..] {
        RestElements(a, e);
        RestElements(b, e);
      }
      StrictUnique(a[1..], b[1..]);
    }
  }

  lemma RestElements(a: seq<Event>, e: Event)
    requires a != [] && StrictlySorted(a)
    ensures StrictlySorted(a[1..])
    ensures e in a[1..] <==> e in a && e != a[0]
  {
    if e in a && e != a[0] {
      var k :| 0 <= k < |a| && a[k] == e;
      assert a[1..][k - 1] == e;
    }
    if e in a[1..] {
      EarlierIsStrict(e, e);
    }
  }

  ghost predicate HasCore(events: seq<Event>, core: Event) {
    exists x :: x in events && Core(x) == core
  }

  /** When copies agree, the cores in order are those of the input, each once. */
  lemma CoresInOrder(events: seq<Event>)
    requires Agree(events)
    ensures StrictlySorted(Cores(InOrder(events)))
    ensures forall e :: e in Cores(InOrder(events)) <==> HasCore(events, e)
  {
    InOrderMeaning(events);
    var sorted, cores := InOrder(events), Cores(InOrder(events));
    forall i, j | 0 <= i < j < |cores| ensures Earlier(cores[i], cores[j]) {
      assert Earlier(sorted[i], sorted[j]);
    }
    forall x | x in events ensures Core(x) in cores {
      assert x.id in Ids(sorted);
      var y :| y in sorted && y.id == x.id;
      var i :| 0 <= i < |sorted| && sorted[i] == y;
      assert cores[i] == Core(y) == Core(x);
    }
    forall e | e in cores ensures HasCore(events, e) {
      var i :| 0 <= i < |cores| && cores[i] == e;
      assert sorted[i] in sorted;
    }
  }

  lemma NumberedByCores(a: seq<Event>, b: seq<Event>)
    requires Cores(a) == Cores(b)
    ensures Numbered(a) == Numbered(b)
  {
    forall i | 0 <= i < |a| ensures Numbered(a)[i] == Numbered(b)[i] {
      assert Cores(a)[i] == Cores(b)[i];
    }
  }

  /** Numbers 1..n in (time, id) order, one event per id, each differing from an input event in its number only. */
  lemma MergedMeaning(events: seq<Event>)
    ensures var m := Merged(events);
            && (forall i :: 0 <= i < |m| ==> m[i].number == i + 1)
            && StrictlySorted(m) && OnePerId(m) && Ids(m) == Ids(events)
            && (forall e :: e in m ==> HasCore(events, Core(e)))
  {
    InOrderMeaning(events);
    hide InOrder;
    var sorted, m := InOrder(events), Merged(events);
    assert forall i, j :: 0 <= i < j < |m| ==> Earlier(sorted[i], sorted[j]) && sorted[i].id != sorted[j].id;
    forall e | e in m ensures HasCore(events, Core(e)) {
      var i :| 0 <= i < |m| && m[i] == e;
      assert sorted[i] in events && Core(sorted[i]) == Core(e);
    }
    forall id ensures id in Ids(m) <==> id in Ids(sorted) {
      if id in Ids(m) {
        var e :| e in m && e.id == id;
        var i :| 0 <= i < |m| && m[i] == e;
        assert sorted[i] in sorted;
      }
      if id in Ids(sorted) {
        var e :| e in sorted && e.id == id;
        var i :| 0 <= i < |sorted| && sorted[i] == e;
        assert m[i] in m;
      }
    }
  }

  /** Input order, duplicates and the numbers the copies came with make no difference. */
  lemma MergeIgnoresOrderAndDuplicates(a: seq<Event>, b: seq<Event>)
    requires Agree(a + b) && Ids(a) == Ids(b)
    ensures Merged(a) == Merged(b)
  {
    AgreeParts(a, b);
    CoresInOrder(a);
    CoresInOrder(b);
    SameCores(a, b);
    StrictUnique(Cores(InOrder(a)), Cores(InOrder(b)));
    NumberedByCores(InOrder(a), InOrder(b));
  }

  lemma AgreeParts(a: seq<Event>, b: seq<Event>)
    requires Agree(a + b)
    ensures Agree(a) && Agree(b)
    ensures forall x, y :: x in a && y in b && x.id == y.id ==> Core(x) == Core(y)
  {
    assert forall x :: x in a || x in b ==> x in a + b;
  }

  lemma SameCores(a: seq<Event>, b: seq<Event>)
    requires Agree(a + b) && Ids(a) == Ids(b)
    ensures forall e :: HasCore(a, e) <==> HasCore(b, e)
  {
    AgreeParts(a, b);
    forall e ensures HasCore(a, e) <==> HasCore(b, e) {
      if HasCore(a, e) {
        var x :| x in a && Core(x) == e;
        assert x.id in Ids(b);
      }
      if HasCore(b, e) {
        var y :| y in b && Core(y) == e;
        assert y.id in Ids(a);
      }
    }
  }

  // ----- Growing -----

  /** Every event with a new id sorts after every earlier event. */
  ghost predicate ArriveLater(a: seq<Event>, b: seq<Event>) {
    forall x, y :: x in a && y in b && y.id !in Ids(a) ==> Earlier(x, y)
  }

  /** Every event of `b` with an id new to `a` sorts after everything in `out`. */
  ghost predicate ArriveAfter(out: seq<Event>, a: seq<Event>, b: seq<Event>) {
    forall x, y :: x in out && y in b && y.id !in Ids(a) ==> Earlier(x, y)
  }

  /** What comes before everything else in a strictly sorted list is its beginning. */
  lemma {:induction false} FirstOfStrict(first: seq<Event>, whole: seq<Event>)
    requires StrictlySorted(first) && StrictlySorted(whole) && forall e :: e in first ==> e in whole
    requires forall x, y :: x in first && y in whole && y !in first ==> Earlier(x, y)
    ensures first <= whole
  {
    if first != [] {
      var e := first[0];
      assert e in first;
      var l :| 0 <= l < |whole| && whole[l] == e;
      HeadIsLeast(first, whole, l);
      forall x ensures x in first[1..] <==> x in first && x != e {
        RestElements(first, x);
      }
      forall x ensures x in whole[1..] <==> x in whole && x != e {
        RestElements(whole, x);
      }
      FirstOfStrict(first[1..], whole[1..]);
    }
  }

  lemma HeadIsLeast(first: seq<Event>, whole: seq<Event>, l: nat)
    requires StrictlySorted(first) && StrictlySorted(whole) && first != []
    requires forall x, y :: x in first && y in whole && y !in first ==> Earlier(x, y)
    requires l < |whole| && whole[l] == first[0]
    ensures whole[0] == first[0]
  {
    var e, h := first[0], whole[0];
    assert e in first && h in whole;
    if h in first {
      var m :| 0 <= m < |first| && first[m] == h;
      assert m == 0 || Earlier(first[0], first[m]);
    }
    assert h == e || Earlier(e, h);
    assert l == 0 || Earlier(whole[0], whole[l]);
    EarlierIsStrict(e, h);
  }

  /** A copy of an earlier event, or one of the new ones. */
  lemma CoreOfBoth(a: seq<Event>, b: seq<Event>, e: Event)
    requires Agree(a + b) && HasCore(a + b, e)
    ensures HasCore(a, e) || exists y :: y in b && y.id !in Ids(a) && Core(y) == e
  {
    AgreeParts(a, b);
    var x :| x in a + b && Core(x) == e;
    if x !in a && x.id in Ids(a) {
      var y :| y in a && y.id == x.id;
      assert Core(y) == e;
    }
  }

  lemma CoreOfFirst(a: seq<Event>, b: seq<Event>, e: Event)
    requires HasCore(a, e)
    ensures HasCore(a + b, e)
  {
    var x :| x in a && Core(x) == e;
    assert x in a + b;
  }

  lemma StrictParts(events: seq<Event>, k: nat)
    requires StrictlySorted(events) && k <= |events|
    ensures StrictlySorted(events[..k])
    ensures forall x, y :: x in events[..k] && y in events && y !in events[..k] ==> Earlier(x, y)
  {
    forall j | 0 <= j < k ensures events[j] in events[..k] {
      assert events[..k][j] == events[j];
    }
    forall x, y | x in events[..k] && y in events && y !in events[..k] ensures Earlier(x, y) {
      var i :| 0 <= i < k && events[..k][i] == x;
      var j :| 0 <= j < |events| && events[j] == y;
      assert Earlier(events[i], events[j]);
    }
  }

  lemma CoresOfStream(events: seq<Event>, x: Event, k: nat)
    requires k <= |Merged(events)| && x in Cores(InOrder(events))[..k]
    ensures exists e :: e in Merged(events)[..k] && Core(e) == x
  {
    var i :| 0 <= i < k && Cores(InOrder(events))[..k][i] == x;
    assert Merged(events)[..k][i] in Merged(events)[..k] && Core(Merged(events)[i]) == x;
  }

  lemma CoresBegin(a: seq<Event>, b: seq<Event>, k: nat)
    requires Agree(a + b) && k <= |Merged(a)| && ArriveAfter(Merged(a)[..k], a, b)
    ensures Cores(InOrder(a))[..k] <= Cores(InOrder(a + b))
  {
    AgreeParts(a, b);
    CoresInOrder(a);
    CoresInOrder(a + b);
    hide StrictlySorted, Agree, InOrder, Cores, HasCore;
    var first, whole := Cores(InOrder(a))[..k], Cores(InOrder(a + b));
    StrictParts(Cores(InOrder(a)), k);
    forall x | x in first ensures x in whole {
      assert x in Cores(InOrder(a));
      CoreOfFirst(a, b, x);
    }
    forall x, y | x in first && y in whole && y !in first ensures Earlier(x, y) {
      CoreOfBoth(a, b, y);
      if !HasCore(a, y) {
        var z :| z in b && z.id !in Ids(a) && Core(z) == y;
        CoresOfStream(a, x, k);
        var e :| e in Merged(a)[..k] && Core(e) == x;
        assert Earlier(e, z);
      }
    }
    FirstOfStrict(first, whole);
  }

  /** Nothing of the stream's first `k` events moves exactly when each new event sorts after all of them. */
  lemma FirstEventsStay(a: seq<Event>, b: seq<Event>, k: nat)
    requires Agree(a + b) && k <= |Merged(a)|
    ensures Merged(a)[..k] <= Merged(a + b) <==> ArriveAfter(Merged(a)[..k], a, b)
  {
    var m, n := Merged(a), Merged(a + b);
    if ArriveAfter(m[..k], a, b) {
      CoresBegin(a, b, k);
      forall i | 0 <= i < k ensures n[i] == m[i] {
        assert Cores(InOrder(a + b))[i] == Cores(InOrder(a))[..k][i];
      }
      assert n[..k] == m[..k];
    }
    if m[..k] <= n {
      PrefixMeansLater(a, b, k);
    }
  }

  lemma PlaceInStream(events: seq<Event>, x: Event) returns (i: nat)
    requires Agree(events) && x in events
    ensures i < |Merged(events)| && Core(Merged(events)[i]) == Core(x)
  {
    CoresInOrder(events);
    var cores := Cores(InOrder(events));
    assert HasCore(events, Core(x));
    i :| 0 <= i < |cores| && cores[i] == Core(x);
  }

  lemma PrefixMeansLater(a: seq<Event>, b: seq<Event>, k: nat)
    requires Agree(a + b) && k <= |Merged(a)| && Merged(a)[..k] <= Merged(a + b)
    ensures ArriveAfter(Merged(a)[..k], a, b)
  {
    MergedMeaning(a);
    MergedMeaning(a + b);
    hide Merged, Agree;
    var m, n := Merged(a), Merged(a + b);
    forall j | 0 <= j < k ensures n[j] == m[j] && m[j].id in Ids(m) {
      assert m[..k][j] == n[j] && m[j] in m;
    }
    forall x, y | x in m[..k] && y in b && y.id !in Ids(a) ensures Earlier(x, y) {
      assert y in a + b;
      var i :| 0 <= i < k && m[..k][i] == x;
      var j := PlaceInStream(a + b, y);
      assert n[i] == m[i];
      assert Earlier(n[i], n[j]);
    }
  }

  /** The stream only grows at its end exactly when new events sort after the old ones. */
  lemma MergedGrowsAtEnd(a: seq<Event>, b: seq<Event>)
    requires Agree(a + b)
    ensures Merged(a) <= Merged(a + b) <==> ArriveLater(a, b)
  {
    AgreeParts(a, b);
    var m := Merged(a);
    FirstEventsStay(a, b, |m|);
    assert m[..|m|] == m;
    MergedMeaning(a);
    hide Merged, Agree;
    if ArriveAfter(m, a, b) {
      forall x, y | x in a && y in b && y.id !in Ids(a) ensures Earlier(x, y) {
        var i := PlaceInStream(a, x);
        assert m[i] in m && Earlier(m[i], y);
      }
    }
    if ArriveLater(a, b) {
      forall e, y | e in m && y in b && y.id !in Ids(a) ensures Earlier(e, y) {
        var x :| x in a && Core(x) == Core(e);
        assert Earlier(x, y);
      }
    }
  }

  // ----- Numbers in text -----

  function Digit(d: nat): char
    requires d < 10
  {
    ['0', '1', '2', '3', '4', '5', '6', '7', '8', '9'][d]
  }

  function DigitValue(c: char): (r: Option<nat>)
    ensures r.Some? ==> r.value < 10
  {
    if '0' <= c <= '9' then Some(c as int - '0' as int) else None
  }

  /** `to_string` of a number that is not negative. */
  function ToText(n: nat): (s: string)
    ensures s != []
  {
    if n < 10 then [Digit(n)] else ToText(n / 10) + [Digit(n % 10)]
  }

  function ParseDigits(s: string): Option<nat> {
    if s == [] then None
    else match DigitValue(s[|s| - 1])
      case None => None
      case Some(d) =>
        if |s| == 1 then Some(d)
        else match ParseDigits(s[..|s| - 1])
          case None => None
          case Some(n) => Some(n * 10 + d)
  }

  const I64_MAX := 0x7FFF_FFFF_FFFF_FFFF

  /** `str::parse::<i64>`: an optional sign, at least one digit, and no overflow. */
  function ParseI64(s: string): Option<int> {
    if s == [] then None
    else
      var negative := s[0] == '-';
      match ParseDigits(if negative || s[0] == '+' then s[1..] else s)
      case None => None
      case Some(n) =>
        if negative then if n <= I64_MAX + 1 then Some(-(n as int)) else None
        else if n <= I64_MAX then Some(n) else None
  }

  lemma {:induction false} TextRoundTrip(n: nat)
    ensures ParseDigits(ToText(n)) == Some(n)
    ensures forall c :: c in ToText(n) ==> '0' <= c <= '9'
  {
    if n >= 10 {
      TextRoundTrip(n / 10);
      var s := ToText(n);
      assert s[..|s| - 1] == ToText(n / 10);
    }
  }

  // ----- Paging -----

  datatype OffsetError = OffsetNotFound(after: string)

  function FindId(events: seq<Event>, id: string): Option<int> {
    if events == [] then None else if events[0].id == id then Some(events[0].number) else FindId(events[1..], id)
  }

  /** No offset, a number, or the id of an event. */
  function ParseEventOffset(after: Option<string>, events: seq<Event>): Result<int, OffsetError> {
    if after.None? then Ok(0)
    else
      var text := TrimSpace(after.value);
      if text == "" then Ok(0)
      else if ParseI64(text).Some? then Ok(ParseI64(text).value)
      else match FindId(events, text)
        case Some(number) => Ok(number)
        case None => Err(OffsetNotFound(text))
  }

  function After(events: seq<Event>, offset: int): seq<Event> {
    if events == [] then []
    else (if events[0].number > offset then [events[0]] else []) + After(events[1..], offset)
  }

  function Take(events: seq<Event>, limit: nat): seq<Event> {
    if |events| <= limit then events else events[..limit]
  }

  /** The stored events and the service's own, merged, from the offset on. */
  function FsEvents(stored: seq<Event>, after: Option<string>, limit: nat): Result<seq<Event>, OffsetError> {
    var merged := Merged(stored);
    match ParseEventOffset(after, merged)
    case Err(e) => Err(e)
    case Ok(offset) => Ok(Take(After(merged, offset), limit))
  }

  lemma {:induction false} AfterNumbered(events: seq<Event>, first: nat, offset: nat)
    requires forall i :: 0 <= i < |events| ==> events[i].number == first + i + 1
    requires first <= offset
    ensures offset - first <= |events| ==> After(events, offset) == events[offset - first..]
    ensures offset - first > |events| ==> After(events, offset) == []
  {
    if events != [] && offset > first {
      AfterNumbered(events[1..], first + 1, offset);
      if offset - first <= |events| {
        assert events[1..][offset - first - 1..] == events[offset - first..];
      }
    } else if events != [] {
      AllAfter(events, offset);
      assert events[0..] == events;
    }
  }

  lemma {:induction false} AllAfter(events: seq<Event>, offset: int)
    requires forall i :: 0 <= i < |events| ==> events[i].number > offset
    ensures After(events, offset) == events
  {
    if events != [] {
      AllAfter(events[1..], offset);
    }
  }

  /** A number's text is read back as that number. */
  lemma NumberIsRead(n: nat)
    requires n <= I64_MAX
    ensures TrimSpace(ToText(n)) == ToText(n) && ParseI64(ToText(n)) == Some(n)
  {
    TextRoundTrip(n);
    hide ToText, ParseDigits;
    var text := ToText(n);
    assert text[0] in text && text[|text| - 1] in text;
  }

  lemma TakeIsSlice(events: seq<Event>, from: nat, limit: nat)
    requires from <= |events|
    ensures Take(events[from..], limit) == events[from..Min(from + limit, |events|)]
  {
    var rest := events[from..];
    if |rest| <= limit {
      assert events[from..|events|] == rest;
    } else {
      assert rest[..limit] == events[from..from + limit];
    }
  }

  lemma PageAfter(merged: seq<Event>, n: nat, limit: nat)
    requires forall i :: 0 <= i < |merged| ==> merged[i].number == i + 1
    ensures Take(After(merged, n), limit) == merged[Min(n, |merged|)..Min(n + limit, |merged|)]
  {
    AfterNumbered(merged, 0, n);
    hide After, Take;
    if n > |merged| {
      assert After(merged, n) == merged[|merged|..];
    }
    TakeIsSlice(merged, Min(n, |merged|), limit);
  }

  /** A page by number: exactly the next events in order, at most `limit` of them, and none past the last. */
  lemma PageByNumber(stored: seq<Event>, n: nat, limit: nat)
    requires n <= I64_MAX
    ensures FsEvents(stored, Some(ToText(n)), limit) ==
            Ok(Merged(stored)[Min(n, |Merged(stored)|)..Min(n + limit, |Merged(stored)|)])
  {
    hide Merged, After, Take;
    NumberIsRead(n);
    hide ToText, TrimSpace, ParseI64;
    MergedMeaning(stored);
    PageAfter(Merged(stored), n, limit);
  }

  lemma {:induction false} FindIdFinds(events: seq<Event>, i: nat)
    requires i < |events| && forall j :: 0 <= j < i ==> events[j].id != events[i].id
    ensures FindId(events, events[i].id) == Some(events[i].number)
  {
    if i > 0 {
      assert events[1..][i - 1] == events[i];
      assert forall j :: 0 <= j < i - 1 ==> events[1..][j] == events[j + 1];
      FindIdFinds(events[1..], i - 1);
    }
  }

  /** A page by event id: what follows that event, when the id cannot be read as a number. */
  lemma PageById(stored: seq<Event>, i: nat, limit: nat)
    requires i < |Merged(stored)|
    requires var id := Merged(stored)[i].id; TrimSpace(id) == id != "" && ParseI64(id).None?
    ensures FsEvents(stored, Some(Merged(stored)[i].id), limit) == Ok(Take(Merged(stored)[i + 1..], limit))
  {
    hide Merged, After, ParseI64, TrimSpace;
    var merged := Merged(stored);
    MergedMeaning(stored);
    assert forall j :: 0 <= j < i ==> merged[j].id != merged[i].id;
    FindIdFinds(merged, i);
    AfterNumbered(merged, 0, i + 1);
  }

  // ----- A watcher -----

  /** The stored copies, the last number seen, and everything handed out so far. */
  datatype Watch = Watch(stored: seq<Event>, seen: nat, delivered: seq<Event>)

  datatype WatchStep = Arrive(copies: seq<Event>) | Poll(limit: nat)

  function StepWatch(w: Watch, step: WatchStep): Watch {
    match step
    case Arrive(copies) => w.(stored := w.stored + copies)
    case Poll(limit) =>
      match FsEvents(w.stored, Some(ToText(w.seen)), limit)
      case Err(_) => w
      case Ok(page) =>
        if page == [] || page[|page| - 1].number < 0 then w
        else w.(seen := page[|page| - 1].number, delivered := w.delivered + page)
  }

  /** Copies agree, and numbers fit. */
  ghost predicate Consistent(w: Watch, step: WatchStep) {
    step.Arrive? ==> Agree(w.stored + step.copies) && |Merged(w.stored + step.copies)| <= I64_MAX
  }

  /** What arrives sorts after everything already handed out. */
  ghost predicate Orderly(w: Watch, step: WatchStep) {
    step.Arrive? ==> ArriveAfter(w.delivered, w.stored, step.copies)
  }

  ghost predicate WatchInv(w: Watch) {
    && Agree(w.stored)
    && |Merged(w.stored)| <= I64_MAX
    && w.seen <= |Merged(w.stored)|
    && w.delivered == Merged(w.stored)[..w.seen]
  }

  /**
   * A poll hands out exactly the next events.  An arrival leaves what was handed out the beginning of the
   * stream exactly when everything new sorts after it.
   */
  lemma StepKeepsWatchInv(w: Watch, step: WatchStep)
    requires WatchInv(w) && Consistent(w, step)
    ensures WatchInv(StepWatch(w, step)) <==> Orderly(w, step)
    ensures step.Poll? ==>
              var n, after := |Merged(w.stored)|, StepWatch(w, step);
              after.stored == w.stored && after.seen == Min(w.seen + step.limit, n)
  {
    match step
    case Arrive(copies) => ArrivalKeepsWatchInv(w, copies);
    case Poll(limit) => PollKeepsWatchInv(w, limit);
  }

  lemma ArrivalKeepsWatchInv(w: Watch, copies: seq<Event>)
    requires WatchInv(w) && Consistent(w, Arrive(copies))
    ensures WatchInv(StepWatch(w, Arrive(copies))) <==> Orderly(w, Arrive(copies))
  {
    hide Merged, ArriveAfter, Agree;
    FirstEventsStay(w.stored, copies, w.seen);
    PrefixIsTaken(w.delivered, Merged(w.stored + copies));
  }

  lemma PollKeepsWatchInv(w: Watch, limit: nat)
    requires WatchInv(w)
    ensures var n, after := |Merged(w.stored)|, StepWatch(w, Poll(limit));
            WatchInv(after) && after.stored == w.stored && after.seen == Min(w.seen + limit, n)
  {
    hide Merged, FsEvents, ToText, Agree;
    var merged := Merged(w.stored);
    PageByNumber(w.stored, w.seen, limit);
    NumbersOf(w.stored);
    var to := Min(w.seen + limit, |merged|);
    assert merged[..w.seen] + merged[w.seen..to] == merged[..to];
  }

  lemma NumbersOf(events: seq<Event>)
    ensures forall i :: 0 <= i < |Merged(events)| ==> Merged(events)[i].number == i + 1
  {
  }

  lemma PrefixIsTaken(first: seq<Event>, whole: seq<Event>)
    ensures first <= whole <==> |first| <= |whole| && first == whole[..|first|]
  {
  }

  function AfterSteps(w: Watch, steps: seq<WatchStep>): Watch {
    if steps == [] then w else StepWatch(AfterSteps(w, steps[..|steps| - 1]), steps[|steps| - 1])
  }

  ghost predicate ConsistentRun(w: Watch, steps: seq<WatchStep>) {
    forall i :: 0 <= i < |steps| ==> Consistent(AfterSteps(w, steps[..i]), steps[i])
  }

  ghost predicate OrderlyRun(w: Watch, steps: seq<WatchStep>) {
    forall i :: 0 <= i < |steps| ==> Orderly(AfterSteps(w, steps[..i]), steps[i])
  }

  ghost predicate AlwaysInOrder(w: Watch, steps: seq<WatchStep>) {
    forall i :: 0 <= i <= |steps| ==> WatchInv(AfterSteps(w, steps[..i]))
  }

  lemma OneStepMore(w: Watch, steps: seq<WatchStep>, i: nat)
    requires i < |steps|
    ensures AfterSteps(w, steps[..i + 1]) == StepWatch(AfterSteps(w, steps[..i]), steps[i])
  {
    assert steps[..i + 1][..i] == steps[..i];
  }

  lemma {:induction false} OrderlyRunStaysInOrder(w: Watch, steps: seq<WatchStep>, i: nat)
    requires WatchInv(w) && ConsistentRun(w, steps) && OrderlyRun(w, steps) && i <= |steps|
    ensures WatchInv(AfterSteps(w, steps[..i]))
  {
    hide WatchInv, Orderly, Consistent, StepWatch;
    if i > 0 {
      OrderlyRunStaysInOrder(w, steps, i - 1);
      OneStepMore(w, steps, i - 1);
      StepKeepsWatchInv(AfterSteps(w, steps[..i - 1]), steps[i - 1]);
    }
  }

  /**
   * Exactly once, in order: however arrivals and polls of any size interleave, what a watcher has handed
   * out is at every moment the beginning of the merged stream, up to the number it last saw, if and only if
   * nothing arrives that sorts before something already handed out.
   */
  lemma DeliveredInOrder(w: Watch, steps: seq<WatchStep>)
    requires WatchInv(w) && ConsistentRun(w, steps)
    ensures AlwaysInOrder(w, steps) <==> OrderlyRun(w, steps)
  {
    hide WatchInv, Orderly, Consistent, StepWatch, AfterSteps;
    if OrderlyRun(w, steps) {
      forall i | 0 <= i <= |steps| ensures WatchInv(AfterSteps(w, steps[..i])) {
        OrderlyRunStaysInOrder(w, steps, i);
      }
    }
    if AlwaysInOrder(w, steps) {
      forall i | 0 <= i < |steps| ensures Orderly(AfterSteps(w, steps[..i]), steps[i]) {
        OneStepMore(w, steps, i);
        assert WatchInv(AfterSteps(w, steps[..i])) && WatchInv(AfterSteps(w, steps[..i + 1]));
        StepKeepsWatchInv(AfterSteps(w, steps[..i]), steps[i]);
      }
    }
  }

  function Polls(count: nat, limit: nat): seq<WatchStep> {
    if count == 0 then [] else Polls(count - 1, limit) + [Poll(limit)]
  }

  /** With any positive page size, enough polls deliver every event. */
  lemma {:induction false} PollsCatchUp(w: Watch, count: nat, limit: nat)
    requires WatchInv(w) && limit > 0
    ensures var after := AfterSteps(w, Polls(count, limit));
            && WatchInv(after) && after.stored == w.stored
            && (w.seen + count >= |Merged(w.stored)| ==> after.delivered == Merged(w.stored))
            && (w.seen + count < |Merged(w.stored)| ==> after.seen >= w.seen + count)
  {
    hide Merged, StepWatch;
    if count > 0 {
      PollsCatchUp(w, count - 1, limit);
      var polls := Polls(count, limit);
      assert polls[..|polls| - 1] == Polls(count - 1, limit);
      StepKeepsWatchInv(AfterSteps(w, Polls(count - 1, limit)), Poll(limit));
    }
    var merged := Merged(w.stored);
    assert merged[..|merged|] == merged;
  }
}
