/** `RequestEventManager`: an insertion-ordered table from URL regex to a
    table from HTTP method to callback, filled by `addListener` and searched
    by `callEvent`.  The regex engine is not modelled: `callEvent` is given
    `re.findall` as a function from (pattern, url) to the list of group
    tuples of all matches. */
module EventManager {

  type Regex = string
  type Verb = string
  type Url = string

  /** The groups of every match, one sequence of strings per match. */
  type Finds = seq<seq<string>>

  type FindAll = (Regex, Url) -> Finds

  /** Body and status `callEvent` answers with when nothing matches. */
  const NOT_FOUND_BODY: string := "[]"
  const NOT_FOUND_STATUS: int := 404

  /** The regex argument of `addListener`: one regex or a list of them. */
  datatype RegexArg = Single(regex: Regex) | Many(regexes: seq<Regex>)

  /** The value of the class-level `listeners` dict: its keys in insertion
      order, and what each key maps to. */
  datatype Table<C> = Table(order: seq<Regex>, entries: map<Regex, map<Verb, C>>) {

    /** The keys are listed once each, and exactly the listed keys have entries. */
    ghost predicate Valid() {
      && (forall i, j :: 0 <= i < j < |order| ==> order[i] != order[j])
      && (forall r :: r in entries <==> r in order)
    }
  }

  /** What `callEvent` decides: the callback to call with the findall result,
      or that no listener matched. */
  datatype Dispatch<C> = Matched(callback: C, finds: Finds) | NotFound

  /** `[regex] if not type(regex) == list else regex`. */
  function Normalize(arg: RegexArg): seq<Regex>
  {
    match arg
    case Single(r) => [r]
    case Many(rs) => rs
  }

  /** One iteration of the loop in `inner`: give `r` an empty method table
      if it has none, then map `verb` to `callback` in it. */
  function AddOne<C>(t: Table<C>, r: Regex, verb: Verb, callback: C): Table<C>
  {
    var t' := if r in t.entries then t else Table(t.order + [r], t.entries[r := map[]]);
    Table(t'.order, t'.entries[r := t'.entries[r][verb := callback]])
  }

  /** The table after `inner(callback)` has run over `regexes` in order. */
  function Registered<C>(t: Table<C>, regexes: seq<Regex>, verb: Verb, callback: C): Table<C>
  {
    if regexes == [] then t
    else AddOne(Registered(t, regexes[..|regexes| - 1], verb, callback), regexes[|regexes| - 1], verb, callback)
  }

  /** A listener of `r` qualifies for the request when it has the method and
      its regex finds at least one match in the url. */
  predicate Qualifies<C>(entries: map<Regex, map<Verb, C>>, findall: FindAll, url: Url, verb: Verb, r: Regex)
  {
    r in entries && verb in entries[r] && |findall(r, url)| > 0
  }

  /** The loop of `callEvent` over `order`: the first qualifying regex wins. */
  function Scan<C>(order: seq<Regex>, entries: map<Regex, map<Verb, C>>, findall: FindAll, url: Url, verb: Verb): Dispatch<C>
  {
    if order == [] then NotFound
    else if Qualifies(entries, findall, url, verb, order[0]) then
      Matched(entries[order[0]][verb], findall(order[0], url))
    else Scan(order[1..], entries, findall, url, verb)
  }

  // ---------------------------------------------------------------------
  // The class

  class RequestEventManager<C> {
    var order: seq<Regex>
    var listeners: map<Regex, map<Verb, C>>

    ghost predicate Valid()
      reads this
    {
      Table(order, listeners).Valid()
    }

    /** `listeners = {}` */
    constructor ()
      ensures Valid() && order == [] && listeners == map[]
    {
      order, listeners := [], map[];
    }

    /** `addListener(regex, method)(callback)`: the decorator and its `inner`. */
    method AddListener(regex: RegexArg, verb: Verb, callback: C)
      requires Valid()
      modifies this
      ensures Valid()
      ensures Table(order, listeners) == Registered(old(Table(order, listeners)), Normalize(regex), verb, callback)
    {
      var regexList := Normalize(regex);
      for i := 0 to |regexList|
        invariant Valid()
        invariant Table(order, listeners) == Registered(old(Table(order, listeners)), regexList[..i], verb, callback)
      {
        var r := regexList[i];
        ghost var before := Table(order, listeners);
        assert regexList[..i + 1] == regexList[..i] + [r];
        RegisteredSnoc(old(Table(order, listeners)), regexList[..i], r, verb, callback);
        AddOneValid(before, r, verb, callback);
        if r !in listeners {
          order := order + [r];
          listeners := listeners[r := map[]];
        }
        listeners := listeners[r := listeners[r][verb := callback]];
      }
      assert regexList[..|regexList|] == regexList;
    }

    /** `callEvent(url, method)`: scan the regexes in insertion order, skip
        those without the method, and pick the first whose findall is not
        empty. */
    method CallEvent(url: Url, verb: Verb, findall: FindAll) returns (d: Dispatch<C>)
      requires Valid()
      ensures d == Scan(order, listeners, findall, url, verb)
    {
      for i := 0 to |order|
        invariant Scan(order, listeners, findall, url, verb) == Scan(order[i..], listeners, findall, url, verb)
      {
        assert order[i..][1..] == order[i + 1..];
        var regex := order[i];
        if verb !in listeners[regex] {
          continue;
        }
        var finds := findall(regex, url);
        if |finds| > 0 {
          return Matched(listeners[regex][verb], finds);
        }
      }
      return NotFound;
    }
  }

  // ---------------------------------------------------------------------
  // Properties of registration

  /** Registering a list one regex longer is one more step. */
  lemma RegisteredSnoc<C>(t: Table<C>, regexes: seq<Regex>, r: Regex, verb: Verb, callback: C)
    ensures Registered(t, regexes + [r], verb, callback) == AddOne(Registered(t, regexes, verb, callback), r, verb, callback)
  {
    assert (regexes + [r])[..|regexes|] == regexes;
  }

  /** Registering regexes none of which is present appends them all, in
      order, each with a fresh method table holding only `verb`. */
  lemma {:induction false} RegisteredAllFresh<C>(t: Table<C>, regexes: seq<Regex>, verb: Verb, callback: C)
    requires forall r :: r in regexes ==> r !in t.entries
    requires forall i, j :: 0 <= i < j < |regexes| ==> regexes[i] != regexes[j]
    ensures Registered(t, regexes, verb, callback)
         == Table(t.order + regexes, t.entries + (map r | r in regexes :: map[verb := callback]))
  {
    if regexes == [] {
      assert t.order + regexes == t.order;
      assert t.entries + (map r | r in regexes :: map[verb := callback]) == t.entries;
    } else {
      var init, last := regexes[..|regexes| - 1], regexes[|regexes| - 1];
      assert regexes == init + [last];
      RegisteredSnoc(t, init, last, verb, callback);
      RegisteredAllFresh(t, init, verb, callback);
      AddFreshStep(t, init, last, verb, callback);
    }
  }

  /** Registering one regex that is not present appends it with a method
      table holding only `verb`. */
  lemma RegisteredOneFresh<C>(t: Table<C>, r: Regex, verb: Verb, callback: C)
    requires r !in t.entries
    ensures Registered(t, [r], verb, callback) == Table(t.order + [r], t.entries[r := map[verb := callback]])
  {
    RegisteredSnoc(t, [], r, verb, callback);
    assert [] + [r] == [r];
    assert map[][verb := callback] == map[verb := callback];
  }

  /** One step of `RegisteredAllFresh`: adding a regex that is neither in
      the table nor among those already appended. */
  lemma AddFreshStep<C>(t: Table<C>, init: seq<Regex>, last: Regex, verb: Verb, callback: C)
    requires last !in t.entries && last !in init
    ensures AddOne(Table(t.order + init, t.entries + (map r | r in init :: map[verb := callback])), last, verb, callback)
         == Table(t.order + (init + [last]), t.entries + (map r | r in init + [last] :: map[verb := callback]))
  {
    var only := map[verb := callback];
    assert map[][verb := callback] == only;
    assert t.order + init + [last] == t.order + (init + [last]);
    ExtendWithFresh(t.entries, init, last, only);
  }

  lemma ExtendWithFresh<V>(m: map<Regex, V>, init: seq<Regex>, last: Regex, v: V)
    ensures m + (map r | r in init + [last] :: v) == (m + (map r | r in init :: v))[last := v]
  {
    var lhs, rhs := m + (map r | r in init + [last] :: v), (m + (map r | r in init :: v))[last := v];
    assert forall r :: r in init + [last] <==> r in init || r == last;
    assert lhs.Keys == rhs.Keys;
  }

  lemma AddOneValid<C>(t: Table<C>, r: Regex, verb: Verb, callback: C)
    requires t.Valid()
    ensures AddOne(t, r, verb, callback).Valid()
  {
  }

  /** Registration keeps the table well formed. */
  lemma {:induction false} RegisteredValid<C>(t: Table<C>, regexes: seq<Regex>, verb: Verb, callback: C)
    requires t.Valid()
    ensures Registered(t, regexes, verb, callback).Valid()
  {
    if regexes != [] {
      RegisteredValid(t, regexes[..|regexes| - 1], verb, callback);
    }
  }

  /** After registration exactly the old regexes and the listed ones have
      method tables, and every listed regex maps `verb` to `callback`. */
  lemma RegisteredMapsVerb<C>(t: Table<C>, regexes: seq<Regex>, verb: Verb, callback: C)
    ensures var t' := Registered(t, regexes, verb, callback);
      && t'.entries.Keys == t.entries.Keys + (set r | r in regexes)
      && (forall r :: r in regexes ==> r in t'.entries && verb in t'.entries[r] && t'.entries[r][verb] == callback)
  {
    var t' := Registered(t, regexes, verb, callback);
    forall r ensures (r in t'.entries <==> r in t.entries || r in regexes)
      && (r in regexes ==> r in t'.entries && verb in t'.entries[r] && t'.entries[r][verb] == callback)
    {
      RegisteredEntry(t, regexes, verb, callback, r);
    }
  }

  /** Registration changes a regex's method table only in `verb`: a regex
      already present keeps its other methods, a new one gets only `verb`,
      and regexes not listed keep their tables. */
  lemma RegisteredEntries<C>(t: Table<C>, regexes: seq<Regex>, verb: Verb, callback: C)
    ensures var t' := Registered(t, regexes, verb, callback);
      && (forall r :: r in t.entries && r in regexes ==> r in t'.entries && t'.entries[r] == t.entries[r][verb := callback])
      && (forall r :: r !in t.entries && r in regexes ==> r in t'.entries && t'.entries[r] == map[verb := callback])
      && (forall r :: r in t.entries && r !in regexes ==> r in t'.entries && t'.entries[r] == t.entries[r])
  {
    var t' := Registered(t, regexes, verb, callback);
    forall r ensures (r in t.entries && r in regexes ==> r in t'.entries && t'.entries[r] == t.entries[r][verb := callback])
      && (r !in t.entries && r in regexes ==> r in t'.entries && t'.entries[r] == map[verb := callback])
      && (r in t.entries && r !in regexes ==> r in t'.entries && t'.entries[r] == t.entries[r])
    {
      RegisteredEntry(t, regexes, verb, callback, r);
      assert map[][verb := callback] == map[verb := callback];
    }
  }

  /** What registration does to the method table of one regex. */
  lemma {:induction false} RegisteredEntry<C>(t: Table<C>, regexes: seq<Regex>, verb: Verb, callback: C, r: Regex)
    ensures var t' := Registered(t, regexes, verb, callback);
      && (r in t'.entries <==> r in t.entries || r in regexes)
      && (r in regexes ==> r in t'.entries && t'.entries[r] == (if r in t.entries then t.entries[r] else map[])[verb := callback])
      && (r !in regexes && r in t.entries ==> r in t'.entries && t'.entries[r] == t.entries[r])
  {
    if regexes != [] {
      var init, last := regexes[..|regexes| - 1], regexes[|regexes| - 1];
      var mid := Registered(t, init, verb, callback);
      RegisteredEntry(t, init, verb, callback, r);
      AddOneEntries(mid, last, verb, callback);
      assert r in regexes <==> r in init || r == last by { assert regexes == init + [last]; }
      if r == last && r in init {
        var m := (if r in t.entries then t.entries[r] else map[])[verb := callback];
        assert m[verb := callback] == m;
      }
    }
  }

  /** One step of registration touches the entry of its regex only. */
  lemma AddOneEntries<C>(t: Table<C>, r: Regex, verb: Verb, callback: C)
    ensures var t' := AddOne(t, r, verb, callback);
      && t'.entries.Keys == t.entries.Keys + {r}
      && t'.entries[r] == (if r in t.entries then t.entries[r] else map[])[verb := callback]
      && (forall q :: q in t.entries && q != r ==> t'.entries[q] == t.entries[q])
  {
  }

  /** Registration never moves a regex: the old order is a prefix of the new
      one, and what follows it is exactly the listed regexes that were not
      yet present. */
  lemma {:induction false} RegisteredOrder<C>(t: Table<C>, regexes: seq<Regex>, verb: Verb, callback: C)
    requires t.Valid()
    ensures var t' := Registered(t, regexes, verb, callback);
      && t.order <= t'.order
      && (forall r :: r in t'.order[|t.order|..] <==> r in regexes && r !in t.entries)
  {
    if regexes != [] {
      var init := regexes[..|regexes| - 1];
      var last := regexes[|regexes| - 1];
      var mid := Registered(t, init, verb, callback);
      RegisteredOrder(t, init, verb, callback);
      RegisteredValid(t, init, verb, callback);
      var t' := AddOne(mid, last, verb, callback);
      assert forall r :: r in regexes <==> r in init || r == last;
      if last !in mid.entries {
        assert t'.order[|t.order|..] == mid.order[|t.order|..] + [last];
      }
    }
  }

  /** A single regex is registered as the one-element list holding it. */
  lemma SingleIsOneElementList<C>(t: Table<C>, r: Regex, verb: Verb, callback: C)
    ensures Registered(t, Normalize(Single(r)), verb, callback) == Registered(t, Normalize(Many([r])), verb, callback)
    ensures var t' := Registered(t, Normalize(Single(r)), verb, callback);
      r in t'.entries && verb in t'.entries[r] && t'.entries[r][verb] == callback
  {
    RegisteredMapsVerb(t, [r], verb, callback);
  }

  /** Registering the same (regex, method) twice keeps the later callback. */
  lemma LastWriteWins<C>(t: Table<C>, first: seq<Regex>, c1: C, second: seq<Regex>, c2: C, verb: Verb, r: Regex)
    requires r in first && r in second
    ensures var t' := Registered(Registered(t, first, verb, c1), second, verb, c2);
      r in t'.entries && verb in t'.entries[r] && t'.entries[r][verb] == c2
  {
    RegisteredMapsVerb(Registered(t, first, verb, c1), second, verb, c2);
  }

  // ---------------------------------------------------------------------
  // Properties of dispatch

  /** The first regex in order that qualifies decides the result, and the
      callback gets that regex's findall result. */
  lemma {:induction false} ScanFirstMatch<C>(order: seq<Regex>, entries: map<Regex, map<Verb, C>>, findall: FindAll, url: Url, verb: Verb, i: nat)
    requires i < |order| && Qualifies(entries, findall, url, verb, order[i])
    requires forall j :: 0 <= j < i ==> !Qualifies(entries, findall, url, verb, order[j])
    ensures Scan(order, entries, findall, url, verb) == Matched(entries[order[i]][verb], findall(order[i], url))
  {
    if i > 0 {
      assert !Qualifies(entries, findall, url, verb, order[0]);
      ScanFirstMatch(order[1..], entries, findall, url, verb, i - 1);
    }
  }

  /** `("[]", 404)` comes back exactly when no regex qualifies. */
  lemma {:induction false} ScanNotFound<C>(order: seq<Regex>, entries: map<Regex, map<Verb, C>>, findall: FindAll, url: Url, verb: Verb)
    ensures Scan(order, entries, findall, url, verb) == NotFound
        <==> forall i :: 0 <= i < |order| ==> !Qualifies(entries, findall, url, verb, order[i])
  {
    if order != [] {
      ScanNotFound(order[1..], entries, findall, url, verb);
      assert forall i :: 1 <= i < |order| ==> order[i] == order[1..][i - 1];
    }
  }

  /** A match always comes from the first qualifying regex: the callback is
      the one it maps the method to, called with its findall result. */
  lemma {:induction false} ScanMatchedSource<C>(order: seq<Regex>, entries: map<Regex, map<Verb, C>>, findall: FindAll, url: Url, verb: Verb)
    requires Scan(order, entries, findall, url, verb).Matched?
    ensures exists i :: && 0 <= i < |order| && Qualifies(entries, findall, url, verb, order[i])
                        && (forall j :: 0 <= j < i ==> !Qualifies(entries, findall, url, verb, order[j]))
                        && Scan(order, entries, findall, url, verb) == Matched(entries[order[i]][verb], findall(order[i], url))
  {
    if !Qualifies(entries, findall, url, verb, order[0]) {
      ScanMatchedSource(order[1..], entries, findall, url, verb);
      var i :| && 0 <= i < |order[1..]| && Qualifies(entries, findall, url, verb, order[1..][i])
               && (forall j :: 0 <= j < i ==> !Qualifies(entries, findall, url, verb, order[1..][j]))
               && Scan(order[1..], entries, findall, url, verb) == Matched(entries[order[1..][i]][verb], findall(order[1..][i], url));
      assert forall j :: 1 <= j < i + 1 ==> order[j] == order[1..][j - 1];
      assert Qualifies(entries, findall, url, verb, order[i + 1]);
    } else {
      assert Qualifies(entries, findall, url, verb, order[0]);
    }
  }

  /** A regex without the requested method is skipped even when it would
      match: removing it from the order changes nothing. */
  lemma {:induction false} ScanSkipsMissingVerb<C>(order: seq<Regex>, entries: map<Regex, map<Verb, C>>, findall: FindAll, url: Url, verb: Verb, k: nat)
    requires k < |order| && order[k] in entries && verb !in entries[order[k]]
    ensures Scan(order, entries, findall, url, verb) == Scan(order[..k] + order[k + 1..], entries, findall, url, verb)
  {
    if k == 0 {
      assert order[..0] + order[1..] == order[1..];
    } else {
      var rest := order[..k] + order[k + 1..];
      assert rest[0] == order[0];
      assert rest[1..] == order[1..][..k - 1] + order[1..][k..];
      ScanSkipsMissingVerb(order[1..], entries, findall, url, verb, k - 1);
    }
  }
}
