/** The notifications page: its list operations, the tab filter and the
    unread count, over the in-memory `notificaciones` state. */
module Notifications {
  import opened Wrappers
  import Seqs

  datatype Tipo = Info | Warning | Success | Error

  datatype Notificacion = Notificacion(
    id: int,
    titulo: string,
    mensaje: string,
    tipo: Tipo,
    leida: bool,
    fecha: string,
    accion: Option<string>,
    enlace: Option<string>)

  predicate Unread(n: Notificacion) { !n.leida }

  predicate Read(n: Notificacion) { n.leida }

  /** `marcarComoLeida(id)`: every notification with that id becomes read;
      nothing else changes, not even the order. */
  function MarkRead(ns: seq<Notificacion>, id: int): (r: seq<Notificacion>)
    ensures |r| == |ns|
    ensures forall i :: 0 <= i < |ns| ==> r[i] == if ns[i].id == id then ns[i].(leida := true) else ns[i]
  {
    if ns == [] then []
    else [if ns[0].id == id then ns[0].(leida := true) else ns[0]] + MarkRead(ns[1..], id)
  }

  lemma MarkReadIdempotent(ns: seq<Notificacion>, id: int)
    ensures MarkRead(MarkRead(ns, id), id) == MarkRead(ns, id)
  {
  }

  function KeepUnless(id: int): Notificacion -> bool {
    (n: Notificacion) => n.id != id
  }

  /** `eliminarNotificacion(id)`: exactly the notifications with that id are
      removed; the rest keep their order and multiplicity. */
  function Delete(ns: seq<Notificacion>, id: int): (r: seq<Notificacion>)
    ensures forall n: Notificacion :: n in r <==> n in ns && n.id != id
    ensures forall n: Notificacion :: multiset(r)[n] == if n.id == id then 0 else multiset(ns)[n]
    ensures forall n: Notificacion :: n.id != id && n in ns ==> n in r
  {
    Seqs.Filter(ns, KeepUnless(id))
  }

  lemma DeleteKeepsOrder(ns: seq<Notificacion>, id: int)
    ensures Seqs.IsSubseq(Delete(ns, id), ns)
  {
    Seqs.FilterIsSubseq(ns, KeepUnless(id));
  }

  /** `marcarTodasComoLeidas`. */
  function MarkAllRead(ns: seq<Notificacion>): (r: seq<Notificacion>)
    ensures |r| == |ns|
    ensures forall i :: 0 <= i < |ns| ==> r[i] == ns[i].(leida := true)
  {
    if ns == [] then [] else [ns[0].(leida := true)] + MarkAllRead(ns[1..])
  }

  /** `noLeidasCount`. */
  function UnreadCount(ns: seq<Notificacion>): nat {
    |Seqs.Filter(ns, Unread)|
  }

  /** The badge of the "Leídas" tab, `notificaciones.length - noLeidasCount`. */
  function ReadCount(ns: seq<Notificacion>): int {
    |ns| - UnreadCount(ns)
  }

  /** After "mark all as read" nothing is unread, and doing it again changes
      nothing. */
  lemma MarkAllReadClearsUnread(ns: seq<Notificacion>)
    ensures UnreadCount(MarkAllRead(ns)) == 0
    ensures MarkAllRead(MarkAllRead(ns)) == MarkAllRead(ns)
  {
    var all := MarkAllRead(ns);
    assert forall n: Notificacion :: n in all ==> !Unread(n);
  }

  /** Whether a notification is listed under `tab`; an unknown tab lists
      everything, like "todas". */
  predicate ShowsOnTab(tab: string, n: Notificacion) {
    if tab == "todas" then true
    else if tab == "no_leidas" then !n.leida
    else if tab == "leidas" then n.leida
    else true
  }

  function OnTab(tab: string): Notificacion -> bool {
    (n: Notificacion) => ShowsOnTab(tab, n)
  }

  /** `filteredNotificaciones`. */
  function FilterByTab(ns: seq<Notificacion>, tab: string): (r: seq<Notificacion>)
    ensures forall n: Notificacion :: n in r <==> n in ns && ShowsOnTab(tab, n)
  {
    Seqs.Filter(ns, OnTab(tab))
  }

  /** "todas" and any unknown tab list everything; "no_leidas" lists exactly
      the unread ones, "leidas" the read ones, and these two split the list,
      agreeing with the badge counts. */
  lemma {:induction false} TabsPartition(ns: seq<Notificacion>, tab: string)
    ensures tab != "no_leidas" && tab != "leidas" ==> FilterByTab(ns, tab) == ns
    ensures |FilterByTab(ns, "no_leidas")| == UnreadCount(ns)
    ensures |FilterByTab(ns, "leidas")| == ReadCount(ns)
    ensures |FilterByTab(ns, "no_leidas")| + |FilterByTab(ns, "leidas")| == |ns|
  {
    if tab != "no_leidas" && tab != "leidas" {
      Seqs.FilterAll(ns, OnTab(tab));
    }
    Seqs.FilterCongruent(ns, OnTab("no_leidas"), Unread);
    Seqs.FilterCongruent(ns, OnTab("leidas"), Read);
    Seqs.FilterPartition(ns, Unread, Read);
  }
}
