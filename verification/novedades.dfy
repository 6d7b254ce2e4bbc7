/** The maintenance-report ("novedades") page: the search-and-tab filter
    and the creation of a new report. */
module Novedades {
  import opened Wrappers
  import Seqs
  import Text

  datatype Estado = Pendiente | EnProceso | Completada | Cancelada

  /** `tipo` and `prioridad` come from the form unchecked (`as any`), so
      they are kept as the strings the form sent. */
  datatype Novedad = Novedad(
    id: int,
    titulo: string,
    descripcion: string,
    tipo: string,
    prioridad: string,
    estado: Estado,
    busNumero: string,
    fechaCreacion: string,
    fechaVencimiento: Option<string>,
    creadoPor: string,
    asignadoA: Option<string>)

  /** Case-insensitive substring search over title, description and bus number. */
  predicate MatchesSearch(n: Novedad, term: string) {
    var t := Text.Lower(term);
    || Text.Contains(Text.Lower(n.titulo), t)
    || Text.Contains(Text.Lower(n.descripcion), t)
    || Text.Contains(Text.Lower(n.busNumero), t)
  }

  predicate MatchesTab(n: Novedad, tab: string) {
    || tab == "todas"
    || (tab == "pendientes" && n.estado == Pendiente)
    || (tab == "en_proceso" && n.estado == EnProceso)
    || (tab == "completadas" && n.estado == Completada)
  }

  function Shown(term: string, tab: string): Novedad -> bool {
    (n: Novedad) => MatchesSearch(n, term) && MatchesTab(n, tab)
  }

  /** `filteredNovedades`, as the effect computes it. */
  function Visible(ns: seq<Novedad>, term: string, tab: string): (r: seq<Novedad>)
    ensures forall n: Novedad :: n in r <==> n in ns && MatchesSearch(n, term) && MatchesTab(n, tab)
    ensures forall n: Novedad :: multiset(r)[n] == if MatchesSearch(n, term) && MatchesTab(n, tab) then multiset(ns)[n] else 0
  {
    Seqs.Filter(ns, Shown(term, tab))
  }

  lemma VisibleKeepsOrder(ns: seq<Novedad>, term: string, tab: string)
    ensures Seqs.IsSubseq(Visible(ns, term, tab), ns)
  {
    Seqs.FilterIsSubseq(ns, Shown(term, tab));
  }

  /** The empty search matches every report, so with no search the "todas"
      tab shows the whole list. */
  lemma {:induction false} EmptySearchShowsAll(ns: seq<Novedad>)
    ensures Visible(ns, "", "todas") == ns
  {
    forall i | 0 <= i < |ns| ensures Shown("", "todas")(ns[i]) {
      Text.ContainsEmpty(Text.Lower(ns[i].titulo));
    }
    Seqs.FilterAll(ns, Shown("", "todas"));
  }

  /** An unrecognised tab shows nothing, and a cancelled report appears only
      under "todas". */
  lemma TabEdgeCases(ns: seq<Novedad>, term: string, tab: string, n: Novedad)
    ensures tab !in ["todas", "pendientes", "en_proceso", "completadas"] ==> Visible(ns, term, tab) == []
    ensures n.estado == Cancelada && n in Visible(ns, term, tab) ==> tab == "todas"
  {
  }

  /** The fields read from the creation form. */
  datatype Form = Form(titulo: string, descripcion: string, tipo: string, prioridad: string, busNumero: string)

  const CreatedBy := "Usuario Actual"

  /** `handleCreateNovedad`: the new report, pending and attributed to the
      current user, goes in front of the existing ones.  `now` is
      `Date.now()` (the id) and `nowIso` the creation timestamp. */
  function Create(ns: seq<Novedad>, form: Form, now: int, nowIso: string): (r: seq<Novedad>)
    ensures |r| == |ns| + 1 && r[1..] == ns
    ensures r[0].estado == Pendiente && r[0].creadoPor == CreatedBy
    ensures r[0].id == now && r[0].fechaCreacion == nowIso
    ensures r[0].titulo == form.titulo && r[0].descripcion == form.descripcion
    ensures r[0].tipo == form.tipo && r[0].prioridad == form.prioridad && r[0].busNumero == form.busNumero
    ensures r[0].fechaVencimiento.None? && r[0].asignadoA.None?
  {
    [Novedad(now, form.titulo, form.descripcion, form.tipo, form.prioridad, Pendiente, form.busNumero,
             nowIso, None, CreatedBy, None)] + ns
  }

  /** A newly created report heads the "pendientes" tab when no search is
      active, followed by the pending reports that were already there. */
  lemma CreatedShowsFirstAsPending(ns: seq<Novedad>, form: Form, now: int, nowIso: string)
    ensures var r := Create(ns, form, now, nowIso);
            Visible(r, "", "pendientes") == [r[0]] + Visible(ns, "", "pendientes")
  {
    var r := Create(ns, form, now, nowIso);
    Text.ContainsEmpty(Text.Lower(r[0].titulo));
    assert r == [r[0]] + ns;
  }
}
