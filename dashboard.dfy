/** The dashboard's figures: status counts over all incidents, priority
    counts over the active ones, the three-bar chart and the five most
    recent incidents. */
module Dashboard {
  import opened Js
  import opened ApiClient

  const Pendiente: string := "Pendiente"
  const EnProgreso: string := "En Progreso"
  const Resuelto: string := "Resuelto"

  predicate IsPending(i: ClientIncident) { i.status == Some(Pendiente) }
  predicate IsInProgress(i: ClientIncident) { i.status == Some(EnProgreso) }
  predicate IsResolved(i: ClientIncident) { i.status == Some(Resuelto) }

  /** Pending or in progress. */
  predicate IsActive(i: ClientIncident) {
    i.status == Some(Pendiente) || i.status == Some(EnProgreso)
  }

  /** Every status the dashboard counts. */
  predicate KnownStatus(i: ClientIncident) {
    i.status == Some(Pendiente) || i.status == Some(EnProgreso) || i.status == Some(Resuelto)
  }

  predicate IsAlta(i: ClientIncident) { i.priority == Some("Alta") }
  predicate IsMedia(i: ClientIncident) { i.priority == Some("Media") }
  predicate IsBaja(i: ClientIncident) { i.priority == Some("Baja") }

  datatype ByPriority = ByPriority(alta: nat, media: nat, baja: nat)

  datatype Stats = Stats(total: nat, pending: nat, inProgress: nat, resolved: nat, byPriority: ByPriority)

  datatype StatusStats = StatusStats(pending: nat, inProgress: nat, resolved: nat)

  /** The incidents still open, pending or in progress, in server order. */
  function Active(data: seq<ClientIncident>): (a: seq<ClientIncident>)
    ensures forall x :: x in a <==> x in data && IsActive(x)
    ensures Subsequence(a, data)
    ensures |a| == Count(data, IsPending) + Count(data, IsInProgress)
  {
    FilterIsSubsequence(data, IsActive);
    CountDisjoint(data, IsPending, IsInProgress, IsActive);
    Filter(data, IsActive)
  }

  /** Priority counts, over the active incidents only. */
  function PriorityCounts(data: seq<ClientIncident>): ByPriority {
    var active := Active(data);
    ByPriority(
      Count(active, IsAlta),
      Count(active, IsMedia),
      Count(active, IsBaja))
  }

  /** `stats` as the load effect sets it. */
  function ComputeStats(data: seq<ClientIncident>): (s: Stats)
    ensures s.total == |data|
  {
    Stats(|data|, Count(data, IsPending), Count(data, IsInProgress), Count(data, IsResolved), PriorityCounts(data))
  }

  /** `statusStats`, counted a second time by the same tests. */
  function ComputeStatusStats(data: seq<ClientIncident>): StatusStats {
    StatusStats(
      Count(data, (i: ClientIncident) => i.status == Some("Pendiente")),
      Count(data, (i: ClientIncident) => i.status == Some("En Progreso")),
      Count(data, (i: ClientIncident) => i.status == Some("Resuelto")))
  }

  datatype ChartEntry = ChartEntry(name: string, value: nat, fill: string)

  /** The bar chart: Alta, Media and Baja in that order. */
  function ChartData(s: Stats): (c: seq<ChartEntry>)
    ensures |c| == 3
    ensures c[0].name == "Alta" && c[1].name == "Media" && c[2].name == "Baja"
    ensures c[0].value == s.byPriority.alta && c[1].value == s.byPriority.media && c[2].value == s.byPriority.baja
  {
    [ChartEntry("Alta", s.byPriority.alta, "#dc3545"),
     ChartEntry("Media", s.byPriority.media, "#fd7e14"),
     ChartEntry("Baja", s.byPriority.baja, "#198754")]
  }

  /** `incidents.slice(0, 5)`: the first five in server order. */
  function Recent(incidents: seq<ClientIncident>): (r: seq<ClientIncident>)
    ensures |r| == if |incidents| < 5 then |incidents| else 5
    ensures r == incidents[..|r|]
  {
    if |incidents| < 5 then incidents else incidents[..5]
  }

  // ---------------------------------------------------------------------------
  // Properties

  /** Pending and in-progress together are the active incidents. */
  lemma ActiveCount(data: seq<ClientIncident>)
    ensures Count(data, IsPending) + Count(data, IsInProgress) == Count(data, IsActive)
  {
    CountDisjoint(data, IsPending, IsInProgress, IsActive);
  }

  /** The three status counts never exceed the total, and they reach it
      exactly when every incident has one of the three statuses. */
  lemma StatusCountsBound(data: seq<ClientIncident>)
    ensures var s := ComputeStats(data);
      s.pending + s.inProgress + s.resolved <= s.total &&
      (s.pending + s.inProgress + s.resolved == s.total <==> forall k :: 0 <= k < |data| ==> KnownStatus(data[k]))
  {
    ActiveCount(data);
    CountDisjoint(data, IsActive, IsResolved, KnownStatus);
    CountFull(data, KnownStatus);
  }

  /** Priority counts cover only active incidents, so they sum to at most the
      pending and in-progress counts together. */
  lemma PriorityCountsBound(data: seq<ClientIncident>)
    ensures var s := ComputeStats(data);
      s.byPriority.alta + s.byPriority.media + s.byPriority.baja <= s.pending + s.inProgress
  {
    var active := Active(data);
    var am := (i: ClientIncident) => IsAlta(i) || IsMedia(i);
    var amb := (i: ClientIncident) => am(i) || IsBaja(i);
    CountDisjoint(active, IsAlta, IsMedia, am);
    CountDisjoint(active, am, IsBaja, amb);
    CountFull(active, amb);
    ActiveCount(data);
  }

  /** A resolved incident adds nothing to the priority counts. */
  lemma ResolvedAddsNoPriority(data: seq<ClientIncident>, x: ClientIncident)
    requires IsResolved(x)
    ensures PriorityCounts(data + [x]) == PriorityCounts(data)
  {
    FilterAppend(data, [x], IsActive);
    assert Filter([x], IsActive) == [];
    assert Active(data + [x]) == Active(data);
  }

  /** The separately kept status counts equal those in `stats`. */
  lemma StatusStatsAgree(data: seq<ClientIncident>)
    ensures var s, t := ComputeStats(data), ComputeStatusStats(data);
      t.pending == s.pending && t.inProgress == s.inProgress && t.resolved == s.resolved
  {
    FilterExt(data, (i: ClientIncident) => i.status == Some("Pendiente"), IsPending);
    FilterExt(data, (i: ClientIncident) => i.status == Some("En Progreso"), IsInProgress);
    FilterExt(data, (i: ClientIncident) => i.status == Some("Resuelto"), IsResolved);
  }

  /** The server's own status values are never counted: a list of incidents
      stored as "Pending" or "Resolved" shows zero in every status box. */
  lemma ServerStatusesUncounted(data: seq<ClientIncident>)
    requires forall k :: 0 <= k < |data| ==> data[k].status == Some("Pending") || data[k].status == Some("Resolved")
    ensures var s := ComputeStats(data); s.pending == 0 && s.inProgress == 0 && s.resolved == 0
  {
    FilterNone(data, IsPending);
    FilterNone(data, IsInProgress);
    FilterNone(data, IsResolved);
  }
}
