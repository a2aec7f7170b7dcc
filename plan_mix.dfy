/**
 * `fetch_plan_mix`: revenue and purchases per month, plug and plan type.
 * A row's plug label is looked up lower-cased in `PP_MAP`, falling back to
 * the label itself; a row whose plug is then not one of `PLUGS` is skipped,
 * and a later row for the same (month, plug, plan type) replaces an earlier
 * one.
 */
module PlanMix {
  import opened Wrappers
  import opened Labels
  import opened Nested

  /** A row `[month, POWERPLUG_TYPE, plan_type, revenue, purchases]` of the plan-mix query. */
  datatype PlanRow = PlanRow(month: string, plug: Option<string>, planType: string,
                             revenue: Option<int>, purchases: Option<int>)

  /** `{'revenue': ..., 'purchases': ...}` (revenue in cents, `round(..., 2)` taken as exact). */
  datatype Mix = Mix(revenue: int, purchases: int)

  /** month -> plug -> plan type -> cell. */
  type PlanData = Cube<string, string, string, Mix>

  /** `PP_MAP.get(pp.lower(), pp) if pp else None` */
  function PlanLabel(raw: Option<string>): Option<string> {
    if raw.None? || raw.value == "" then None
    else Some(Lookup(PP_MAP, Lower(raw.value)).GetOr(raw.value))
  }

  /** The plug a row is kept under: `if not pp_mapped or pp_mapped not in PLUGS: continue`. */
  function RowPlug(raw: Option<string>): Option<string> {
    match PlanLabel(raw)
    case Some(p) => if p == "" || p !in PLUGS then None else Some(p)
    case None => None
  }

  function MixOf(r: PlanRow): Mix {
    Mix(r.revenue.GetOr(0), r.purchases.GetOr(0))
  }

  /**
   * Falling back to the raw label never keeps a row the trial path's lookup
   * would drop, nor changes its plug: a canonical plug name is found again
   * under its lower-cased form.  So the plan-mix plug is `TrialPlug`.
   */
  lemma RowPlugIsTrialPlug(raw: Option<string>)
    ensures RowPlug(raw) == TrialPlug(raw)
  {
    TablesMapIntoVocabulary();
    assert Lower("") == "";
    if raw.Some? && raw.value != "" && Lower(raw.value) !in PP_MAP && raw.value in PLUGS {
      PlugRenormalises(raw.value);
    }
  }

  /** Reference: the cell of the last kept row for (month, plug, plan type), None when there is none. */
  function LastMix(rows: seq<PlanRow>, mk: string, pp: string, pt: string): Option<Mix>
    decreases |rows|
  {
    if rows == [] then None
    else
      var r := rows[|rows| - 1];
      if r.month == mk && RowPlug(r.plug) == Some(pp) && r.planType == pt then Some(MixOf(r))
      else LastMix(rows[..|rows| - 1], mk, pp, pt)
  }

  /** A row for the triple is kept, and no later row for it is. */
  predicate LastRowFor(rows: seq<PlanRow>, i: int, mk: string, pp: string, pt: string) {
    && 0 <= i < |rows|
    && rows[i].month == mk && RowPlug(rows[i].plug) == Some(pp) && rows[i].planType == pt
    && forall j :: i < j < |rows| ==> !(rows[j].month == mk && RowPlug(rows[j].plug) == Some(pp) && rows[j].planType == pt)
  }

  /** Last write wins: the reference cell is the last kept row's. */
  lemma {:induction false} LastMixIsLastRow(rows: seq<PlanRow>, i: int, mk: string, pp: string, pt: string)
    requires LastRowFor(rows, i, mk, pp, pt)
    ensures LastMix(rows, mk, pp, pt) == Some(MixOf(rows[i]))
    decreases |rows|
  {
    var n := |rows| - 1;
    if i < n {
      assert !(rows[n].month == mk && RowPlug(rows[n].plug) == Some(pp) && rows[n].planType == pt);
      assert LastRowFor(rows[..n], i, mk, pp, pt);
      LastMixIsLastRow(rows[..n], i, mk, pp, pt);
    }
  }

  /** No kept row for the triple, no cell. */
  lemma {:induction false} LastMixNone(rows: seq<PlanRow>, mk: string, pp: string, pt: string)
    requires forall j :: 0 <= j < |rows| ==> !(rows[j].month == mk && RowPlug(rows[j].plug) == Some(pp) && rows[j].planType == pt)
    ensures LastMix(rows, mk, pp, pt).None?
    decreases |rows|
  {
    if rows != [] {
      var n := |rows| - 1;
      assert forall j :: 0 <= j < n ==> rows[..n][j] == rows[j];
      LastMixNone(rows[..n], mk, pp, pt);
    }
  }

  /** `result` holds the last kept row of every triple, and no level of it is empty. */
  ghost predicate Grouped(result: PlanData, rows: seq<PlanRow>) {
    && (forall mk, pp, pt :: Find(result, mk, pp, pt) == LastMix(rows, mk, pp, pt))
    && (forall mk :: mk in result ==> result[mk] != map[])
    && (forall mk, pp :: mk in result && pp in result[mk] ==> result[mk][pp] != map[])
    && (forall mk, pp :: mk in result && pp in result[mk] ==> pp in PLUGS)
  }

  lemma GroupedEmpty()
    ensures Grouped(map[], [])
  {
  }

  /** One more row of the loop keeps the result grouped. */
  lemma MixStep(result: PlanData, rows: seq<PlanRow>, r: PlanRow)
    requires Grouped(result, rows)
    ensures RowPlug(r.plug).Some? ==> RowPlug(r.plug).value in PLUGS
    ensures Grouped(if RowPlug(r.plug).Some? then Set(result, r.month, RowPlug(r.plug).value, r.planType, MixOf(r)) else result,
                    rows + [r])
  {
    var rows' := rows + [r];
    assert rows'[..|rows|] == rows;
    if RowPlug(r.plug).Some? {
      var pp := RowPlug(r.plug).value;
      var result' := Set(result, r.month, pp, r.planType, MixOf(r));
      forall mk, pp', pt ensures Find(result', mk, pp', pt) == LastMix(rows', mk, pp', pt) {
        SetFind(result, r.month, pp, r.planType, MixOf(r), mk, pp', pt);
      }
      SetKeepsLevels(result, r.month, pp, r.planType, MixOf(r));
      forall mk, pp' | mk in result' && pp' in result'[mk] ensures pp' in PLUGS {
        SetPairs(result, r.month, pp, r.planType, MixOf(r), mk, pp');
      }
    }
  }

  /**
   * `fetch_plan_mix`: the query's rows (None when it raised, which gives
   * `{}`; no rows gives `{}` too).
   */
  method FetchPlanMix(res: Option<seq<PlanRow>>) returns (result: PlanData)
    ensures Grouped(result, RowsOf(res))
  {
    var rows := RowsOf(res);
    result := map[];
    GroupedEmpty();
    if rows == [] {
      return;
    }
    for i := 0 to |rows|
      invariant Grouped(result, rows[..i])
    {
      var row := rows[i];
      MixStep(result, rows[..i], row);
      assert rows[..i + 1] == rows[..i] + [row];
      var pp := RowPlug(row.plug);
      if pp.None? {
        continue;
      }
      result := Set(result, row.month, pp.value, row.planType, MixOf(row));
    }
    assert rows[..|rows|] == rows;
  }

  /** A month is listed exactly when some row of it was kept. */
  lemma MonthListed(result: PlanData, rows: seq<PlanRow>, mk: string)
    requires Grouped(result, rows)
    ensures mk in result <==> exists j :: 0 <= j < |rows| && rows[j].month == mk && RowPlug(rows[j].plug).Some?
  {
    if mk in result {
      var pp :| pp in result[mk];
      var pt :| pt in result[mk][pp];
      assert Find(result, mk, pp, pt).Some?;
      if forall j :: 0 <= j < |rows| ==> !(rows[j].month == mk && RowPlug(rows[j].plug) == Some(pp) && rows[j].planType == pt) {
        LastMixNone(rows, mk, pp, pt);
        assert false;
      }
    }
    if j :| 0 <= j < |rows| && rows[j].month == mk && RowPlug(rows[j].plug).Some? {
      var pp := RowPlug(rows[j].plug).value;
      var pt := rows[j].planType;
      var i := LastOf(rows, j, mk, pp, pt);
      LastMixIsLastRow(rows, i, mk, pp, pt);
      assert Find(result, mk, pp, pt).Some?;
    }
  }

  /** The last kept row for a triple that has one. */
  lemma {:induction false} LastOf(rows: seq<PlanRow>, j: int, mk: string, pp: string, pt: string) returns (i: int)
    requires 0 <= j < |rows| && rows[j].month == mk && RowPlug(rows[j].plug) == Some(pp) && rows[j].planType == pt
    ensures LastRowFor(rows, i, mk, pp, pt) && j <= i
    decreases |rows| - j
  {
    if k :| j < k < |rows| && rows[k].month == mk && RowPlug(rows[k].plug) == Some(pp) && rows[k].planType == pt {
      i := LastOf(rows, k, mk, pp, pt);
    } else {
      i := j;
    }
  }
}
