/** The activity-history page: the conjunctive filters and the distinct
    values offered in its drop-downs. */
module Historial {
  import opened Wrappers
  import Seqs
  import Text

  datatype Entry = Entry(
    id: int,
    fecha: string,
    usuario: string,
    accion: string,
    modulo: string,
    descripcion: string,
    detalles: Option<string>,
    ip: Option<string>)

  const AllModules := "todos"
  const AllActions := "todas"
  const AllUsers := "todos"

  predicate MatchesSearch(e: Entry, term: string) {
    var t := Text.Lower(term);
    || Text.Contains(Text.Lower(e.descripcion), t)
    || Text.Contains(Text.Lower(e.usuario), t)
    || Text.Contains(Text.Lower(e.modulo), t)
  }

  function SearchPred(term: string): Entry -> bool { (e: Entry) => MatchesSearch(e, term) }
  function ModulePred(m: string): Entry -> bool { (e: Entry) => Text.EqualsIgnoreCase(e.modulo, m) }
  function ActionPred(a: string): Entry -> bool { (e: Entry) => Text.EqualsIgnoreCase(e.accion, a) }
  function UserPred(u: string): Entry -> bool { (e: Entry) => e.usuario == u }

  /** `applyFilters`, one filter after the other, each skipped when its
      control holds the empty search or its "all" sentinel. */
  function ApplyFilters(h: seq<Entry>, term: string, m: string, a: string, u: string): seq<Entry> {
    var s1 := FilterIf(h, term != "", SearchPred(term));
    var s2 := FilterIf(s1, m != AllModules, ModulePred(m));
    var s3 := FilterIf(s2, a != AllActions, ActionPred(a));
    FilterIf(s3, u != AllUsers, UserPred(u))
  }

  /** The reference reading: an entry is listed iff it passes every active
      filter.  Module and action compare case-insensitively, the user
      exactly. */
  predicate Selected(e: Entry, term: string, m: string, a: string, u: string) {
    && (term == "" || MatchesSearch(e, term))
    && (m == AllModules || Text.EqualsIgnoreCase(e.modulo, m))
    && (a == AllActions || Text.EqualsIgnoreCase(e.accion, a))
    && (u == AllUsers || e.usuario == u)
  }

  function SelectedPred(term: string, m: string, a: string, u: string): Entry -> bool {
    (e: Entry) => Selected(e, term, m, a, u)
  }

  /** A filter applied only when `active`. */
  function FilterIf(s: seq<Entry>, active: bool, p: Entry -> bool): seq<Entry> {
    if active then Seqs.Filter(s, p) else s
  }

  lemma {:induction false} Stage(h: seq<Entry>, acc: Entry -> bool, active: bool, p: Entry -> bool, next: Entry -> bool)
    requires forall i :: 0 <= i < |h| ==> next(h[i]) == (acc(h[i]) && (!active || p(h[i])))
    ensures FilterIf(Seqs.Filter(h, acc), active, p) == Seqs.Filter(h, next)
  {
    if active {
      Seqs.FilterFilter(h, acc, p, next);
    } else {
      Seqs.FilterCongruent(h, acc, next);
    }
  }

  /** The conjunction of the search, module and action predicates, and of
      the search and module predicates: the filters that have run so far. */
  function UpToAction(term: string, m: string, a: string): Entry -> bool {
    (e: Entry) => Selected(e, term, m, a, AllUsers)
  }

  function UpToModule(term: string, m: string): Entry -> bool {
    (e: Entry) => Selected(e, term, m, AllActions, AllUsers)
  }

  function UpToSearch(term: string): Entry -> bool {
    (e: Entry) => Selected(e, term, AllModules, AllActions, AllUsers)
  }

  lemma {:induction false} SearchStage(h: seq<Entry>, term: string)
    ensures FilterIf(h, term != "", SearchPred(term)) == Seqs.Filter(h, UpToSearch(term))
  {
    var all: Entry -> bool := (e: Entry) => true;
    Seqs.FilterAll(h, all);
    Stage(h, all, term != "", SearchPred(term), UpToSearch(term));
  }

  lemma {:induction false} ModuleStage(h: seq<Entry>, term: string, m: string)
    ensures FilterIf(Seqs.Filter(h, UpToSearch(term)), m != AllModules, ModulePred(m)) == Seqs.Filter(h, UpToModule(term, m))
  {
    Stage(h, UpToSearch(term), m != AllModules, ModulePred(m), UpToModule(term, m));
  }

  lemma {:induction false} ActionStage(h: seq<Entry>, term: string, m: string, a: string)
    ensures FilterIf(Seqs.Filter(h, UpToModule(term, m)), a != AllActions, ActionPred(a)) == Seqs.Filter(h, UpToAction(term, m, a))
  {
    Stage(h, UpToModule(term, m), a != AllActions, ActionPred(a), UpToAction(term, m, a));
  }

  lemma {:induction false} UserStage(h: seq<Entry>, term: string, m: string, a: string, u: string)
    ensures FilterIf(Seqs.Filter(h, UpToAction(term, m, a)), u != AllUsers, UserPred(u)) == Seqs.Filter(h, SelectedPred(term, m, a, u))
  {
    Stage(h, UpToAction(term, m, a), u != AllUsers, UserPred(u), SelectedPred(term, m, a, u));
  }

  /** The sequential filters select exactly the entries that satisfy every
      active predicate, in their original order, so the order in which the
      filters run does not matter. */
  lemma {:induction false} ApplyFiltersSelects(h: seq<Entry>, term: string, m: string, a: string, u: string)
    ensures ApplyFilters(h, term, m, a, u) == Seqs.Filter(h, SelectedPred(term, m, a, u))
    ensures Seqs.IsSubseq(ApplyFilters(h, term, m, a, u), h)
  {
    SearchStage(h, term);
    ModuleStage(h, term, m);
    ActionStage(h, term, m, a);
    UserStage(h, term, m, a, u);
    Seqs.FilterIsSubseq(h, SelectedPred(term, m, a, u));
  }

  /** With every control at its default nothing is filtered out. */
  lemma {:induction false} DefaultsShowEverything(h: seq<Entry>)
    ensures ApplyFilters(h, "", AllModules, AllActions, AllUsers) == h
  {
  }

  /** `[...new Set(xs)]`: each value once, in order of first occurrence. */
  method Unique(xs: seq<string>) returns (r: seq<string>)
    ensures Seqs.NoDuplicates(r)
    ensures forall x :: x in r <==> x in xs
    ensures forall i, j :: 0 <= i < j < |r| ==> Seqs.IndexOf(xs, r[i]) < Seqs.IndexOf(xs, r[j])
  {
    r := [];
    var k := 0;
    while k < |xs|
      invariant 0 <= k <= |xs|
      invariant Seqs.NoDuplicates(r)
      invariant forall x :: x in r <==> x in xs[..k]
      invariant forall i :: 0 <= i < |r| ==> 0 <= Seqs.IndexOf(xs, r[i]) < k
      invariant forall i, j :: 0 <= i < j < |r| ==> Seqs.IndexOf(xs, r[i]) < Seqs.IndexOf(xs, r[j])
    {
      assert xs[..k + 1] == xs[..k] + [xs[k]];
      if xs[k] !in r {
        Seqs.IndexOfAt(xs, xs[k], k);
        r := r + [xs[k]];
      }
      k := k + 1;
    }
    assert xs[..k] == xs;
  }

  function Modules(h: seq<Entry>): seq<string> { seq(|h|, i requires 0 <= i < |h| => h[i].modulo) }
  function Actions(h: seq<Entry>): seq<string> { seq(|h|, i requires 0 <= i < |h| => h[i].accion) }
  function Users(h: seq<Entry>): seq<string> { seq(|h|, i requires 0 <= i < |h| => h[i].usuario) }

  /** `uniqueModules`, `uniqueActions` and `uniqueUsers`. */
  method DropDownValues(h: seq<Entry>) returns (modules: seq<string>, actions: seq<string>, users: seq<string>)
    ensures Seqs.NoDuplicates(modules) && Seqs.NoDuplicates(actions) && Seqs.NoDuplicates(users)
    ensures forall x :: x in modules <==> exists e :: e in h && e.modulo == x
    ensures forall x :: x in actions <==> exists e :: e in h && e.accion == x
    ensures forall x :: x in users <==> exists e :: e in h && e.usuario == x
  {
    modules := Unique(Modules(h));
    actions := Unique(Actions(h));
    users := Unique(Users(h));
    forall x | x in modules ensures exists e :: e in h && e.modulo == x {
      var i :| 0 <= i < |h| && Modules(h)[i] == x;
      assert h[i] in h;
    }
    forall x | x in actions ensures exists e :: e in h && e.accion == x {
      var i :| 0 <= i < |h| && Actions(h)[i] == x;
      assert h[i] in h;
    }
    forall x | x in users ensures exists e :: e in h && e.usuario == x {
      var i :| 0 <= i < |h| && Users(h)[i] == x;
      assert h[i] in h;
    }
    forall e | e in h ensures e.modulo in modules && e.accion in actions && e.usuario in users {
      var i :| 0 <= i < |h| && h[i] == e;
      assert Modules(h)[i] == e.modulo && Actions(h)[i] == e.accion && Users(h)[i] == e.usuario;
    }
  }
}
