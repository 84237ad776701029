/** The multi-day follow-up plan of planobs/multiday_plan.py: observation
    nights 1, 2, 3, 5, 7 and 9 after the start date, one g-band window per
    night and r-band windows on the first and last night only. From the
    windows of each night the plan assembles a printable summary and the
    list of triggers later sent to the ZTF queue. */
module MultidayPlan {
  import opened Wrappers
  import opened Text
  import Utils

  const NIGHTS: seq<nat> := [1, 2, 3, 5, 7, 9]
  /** Every night but the first gets 30 s exposures. */
  const SHORT_NIGHTS: seq<nat> := NIGHTS[1..]
  /** The nights in the middle are observed in the g band only. */
  const ONE_FILTER_NIGHTS: seq<nat> := NIGHTS[1..|NIGHTS| - 1]

  const RULE: string := "--------------------------------------------------------"

  /** Filter ids and the band letters print_triggers shows for them. */
  const BANDS: map<nat, string> := map[1 := "g", 2 := "r", 3 := "i"]

  /** Night n is observed (n - 1) days after the start date; days are counted
      as whole day numbers. NightDaysIncrease shows the dates strictly
      increase. */
  function NightDays(startDay: int): (days: seq<int>)
    ensures |days| == |NIGHTS|
    ensures forall i :: 0 <= i < |NIGHTS| ==> days[i] == startDay + NIGHTS[i] - 1
  {
    seq(|NIGHTS|, i requires 0 <= i < |NIGHTS| => startDay + NIGHTS[i] - 1)
  }

  /** The nights fall on distinct, increasing days, the first on the start
      date and the last eight days later. */
  lemma NightDaysIncrease(startDay: int)
    ensures var days := NightDays(startDay);
            && days[0] == startDay && days[|days| - 1] == startDay + 8
            && forall i, j :: 0 <= i < j < |days| ==> days[i] < days[j]
  {
    var days := NightDays(startDay);
    forall i, j | 0 <= i < j < |days|
      ensures days[i] < days[j]
    {
      assert NIGHTS[i] < NIGHTS[j];
    }
  }

  /** The bands argument the assembly passes to the single-night planner for
      a night: none on the first night, so the planner's own default applies
      (the planner is not part of this model), ["g"] on the one-filter nights
      and ["g", "r"] on the last night. */
  function RequestedBands(night: nat): (bands: Option<seq<string>>)
    ensures bands.Some? <==> night in SHORT_NIGHTS
  {
    if night !in SHORT_NIGHTS then None
    else if night in ONE_FILTER_NIGHTS then Some(["g"])
    else Some(["g", "r"])
  }

  /** Exposure time in seconds: 300 s on the first night, 30 s afterwards. */
  function ExposureTime(night: nat): (t: nat)
    ensures t == 30 || t == 300
  {
    if night in SHORT_NIGHTS then 30 else 300
  }

  /** The exposure times and requested bands agree with the schedule: night 1
      gets 300 s and the planner's default bands, every later night 30 s, the
      one-filter nights (2, 3, 5 and 7) the g band only and night 9 both bands. */
  lemma ScheduleOfNights(i: nat)
    requires i < |NIGHTS|
    ensures ExposureTime(NIGHTS[i]) == (if i == 0 then 300 else 30)
    ensures RequestedBands(NIGHTS[i]).None? <==> i == 0
    ensures RequestedBands(NIGHTS[i]) == Some(["g"]) <==> 1 <= i <= 4
    ensures RequestedBands(NIGHTS[i]) == Some(["g", "r"]) <==> i == 5
    ensures NIGHTS[i] in ONE_FILTER_NIGHTS <==> 1 <= i <= 4
  {
    assert ["g"] != ["g", "r"];
  }

  /** What the single-night planner reported for one night: its observable
      flag (True, False or None) and the recommended start and end of the g
      and r windows, as ISO time strings ("2022-05-03 09:35:00.000"). */
  datatype NightPlan = NightPlan(
    observable: Option<bool>,
    gStart: Option<string>,
    gEnd: Option<string>,
    rStart: Option<string>,
    rEnd: Option<string>)

  /** One entry of self.triggers. */
  datatype PlannedTrigger = PlannedTrigger(
    fieldId: nat,
    filterId: nat,
    mjdStart: real,
    mjdEnd: real,
    exposureTime: nat)

  /** zip() over the night plans and NIGHTS stops at the shorter of the two. */
  function ZipLength(plans: seq<NightPlan>): (n: nat)
    ensures n <= |plans| && n <= |NIGHTS|
    ensures n == |plans| || n == |NIGHTS|
  {
    if |plans| < |NIGHTS| then |plans| else |NIGHTS|
  }

  /** A g window is scheduled when start, end and the observable flag are all
      set; the flag is only compared with None, so False also schedules. */
  predicate GScheduled(p: NightPlan) {
    p.gStart.Some? && p.gEnd.Some? && p.observable.Some?
  }

  /** An r window is scheduled likewise, except on the one-filter nights. */
  predicate RScheduled(night: nat, p: NightPlan) {
    p.rStart.Some? && p.rEnd.Some? && p.observable.Some? && night !in ONE_FILTER_NIGHTS
  }

  function WindowLine(night: nat, start: string, end: string): string {
    "Night " + NatToString(night) + " " + Utils.ShortTime(start) + " - " + Utils.ShortTime(end)
    + " (" + NatToString(ExposureTime(night)) + "s)\n"
  }

  function NotObservableLine(night: nat): string {
    "Night " + NatToString(night) + " NOT OBSERVABLE\n"
  }

  function NoObsLine(night: nat): string {
    "Night " + NatToString(night) + " NO OBS SCHEDULED\n"
  }

  function GLine(night: nat, p: NightPlan): string {
    if GScheduled(p) then WindowLine(night, p.gStart.value, p.gEnd.value) else NotObservableLine(night)
  }

  function RLine(night: nat, p: NightPlan): string {
    if RScheduled(night, p) then WindowLine(night, p.rStart.value, p.rEnd.value)
    else if night !in ONE_FILTER_NIGHTS then NotObservableLine(night)
    else NoObsLine(night)
  }

  function GTrigger(night: nat, p: NightPlan, field: nat, isotimeToMjd: string -> real): PlannedTrigger
    requires GScheduled(p)
  {
    PlannedTrigger(field, 1, isotimeToMjd(p.gStart.value), isotimeToMjd(p.gEnd.value), ExposureTime(night))
  }

  function RTrigger(night: nat, p: NightPlan, field: nat, isotimeToMjd: string -> real): PlannedTrigger
    requires RScheduled(night, p)
  {
    PlannedTrigger(field, 2, isotimeToMjd(p.rStart.value), isotimeToMjd(p.rEnd.value), ExposureTime(night))
  }

  /** The g-band lines of the first k nights. */
  function GText(plans: seq<NightPlan>, k: nat): string
    requires k <= ZipLength(plans)
  {
    if k == 0 then "" else GText(plans, k - 1) + GLine(NIGHTS[k - 1], plans[k - 1])
  }

  /** The r-band lines of the first k nights. */
  function RText(plans: seq<NightPlan>, k: nat): string
    requires k <= ZipLength(plans)
  {
    if k == 0 then "" else RText(plans, k - 1) + RLine(NIGHTS[k - 1], plans[k - 1])
  }

  /** The indices of the first k nights with a scheduled g window, in
      increasing order. */
  function GNights(plans: seq<NightPlan>, k: nat): (idx: seq<nat>)
    requires k <= ZipLength(plans)
    ensures forall a, b :: 0 <= a < b < |idx| ==> idx[a] < idx[b]
    ensures forall a :: 0 <= a < |idx| ==> idx[a] < k
    ensures forall i: nat :: i in idx <==> i < k && GScheduled(plans[i])
  {
    if k == 0 then [] else GNights(plans, k - 1) + (if GScheduled(plans[k - 1]) then [k - 1] else [])
  }

  /** The indices of the first k nights with a scheduled r window, in
      increasing order. */
  function RNights(plans: seq<NightPlan>, k: nat): (idx: seq<nat>)
    requires k <= ZipLength(plans)
    ensures forall a, b :: 0 <= a < b < |idx| ==> idx[a] < idx[b]
    ensures forall a :: 0 <= a < |idx| ==> idx[a] < k
    ensures forall i: nat :: i in idx <==> i < k && RScheduled(NIGHTS[i], plans[i])
  {
    if k == 0 then [] else RNights(plans, k - 1) + (if RScheduled(NIGHTS[k - 1], plans[k - 1]) then [k - 1] else [])
  }

  /** The g-band triggers of the first k nights: at most one per night, each
      for the recommended field in filter 1 and each taken from a scheduled
      night's window. */
  function GTriggers(plans: seq<NightPlan>, k: nat, field: nat, isotimeToMjd: string -> real)
    : (ts: seq<PlannedTrigger>)
    requires k <= ZipLength(plans)
    ensures |ts| <= k
    ensures forall t :: t in ts ==> t.filterId == 1 && t.fieldId == field
    ensures forall t :: t in ts ==>
              exists i :: 0 <= i < k && GScheduled(plans[i]) && t == GTrigger(NIGHTS[i], plans[i], field, isotimeToMjd)
  {
    if k == 0 then []
    else
      var p := plans[k - 1];
      GTriggers(plans, k - 1, field, isotimeToMjd)
      + (if GScheduled(p) then [GTrigger(NIGHTS[k - 1], p, field, isotimeToMjd)] else [])
  }

  /** The r-band triggers of the first k nights: none from the one-filter
      nights, so at most one among the first five nights and two in all. */
  function RTriggers(plans: seq<NightPlan>, k: nat, field: nat, isotimeToMjd: string -> real)
    : (ts: seq<PlannedTrigger>)
    requires k <= ZipLength(plans)
    ensures |ts| <= (if k == 0 then 0 else if k < |NIGHTS| then 1 else 2)
    ensures forall t :: t in ts ==> t.filterId == 2 && t.fieldId == field
    ensures forall t :: t in ts ==>
              exists i :: 0 <= i < k && RScheduled(NIGHTS[i], plans[i])
                          && t == RTrigger(NIGHTS[i], plans[i], field, isotimeToMjd)
  {
    if k == 0 then []
    else
      var p := plans[k - 1];
      RTriggers(plans, k - 1, field, isotimeToMjd)
      + (if RScheduled(NIGHTS[k - 1], p) then [RTrigger(NIGHTS[k - 1], p, field, isotimeToMjd)] else [])
  }

  /** The g-band triggers of the first k nights follow the scheduled
      nights in order: the a-th trigger comes from the a-th night with a g
      window. */
  lemma {:induction false} GTriggersFollowNights(plans: seq<NightPlan>, k: nat, field: nat, isotimeToMjd: string -> real)
    requires k <= ZipLength(plans)
    ensures var ts, idx := GTriggers(plans, k, field, isotimeToMjd), GNights(plans, k);
            && |ts| == |idx|
            && forall a :: 0 <= a < |ts| ==>
                 GScheduled(plans[idx[a]]) && ts[a] == GTrigger(NIGHTS[idx[a]], plans[idx[a]], field, isotimeToMjd)
  {
    if k > 0 {
      GTriggersFollowNights(plans, k - 1, field, isotimeToMjd);
      GTriggersStep(plans, k, field, isotimeToMjd);
      var ts', idx' := GTriggers(plans, k - 1, field, isotimeToMjd), GNights(plans, k - 1);
      var ts, idx := GTriggers(plans, k, field, isotimeToMjd), GNights(plans, k);
      forall a | 0 <= a < |ts|
        ensures GScheduled(plans[idx[a]]) && ts[a] == GTrigger(NIGHTS[idx[a]], plans[idx[a]], field, isotimeToMjd)
      {
        if a < |ts'| {
          assert ts[a] == ts'[a] && idx[a] == idx'[a];
        }
      }
    }
  }

  /** Night k - 1 adds its g trigger and its index exactly when its g
      window is scheduled. */
  lemma GTriggersStep(plans: seq<NightPlan>, k: nat, field: nat, isotimeToMjd: string -> real)
    requires 0 < k <= ZipLength(plans)
    ensures var p := plans[k - 1];
            && GTriggers(plans, k, field, isotimeToMjd)
               == GTriggers(plans, k - 1, field, isotimeToMjd) + (if GScheduled(p) then [GTrigger(NIGHTS[k - 1], p, field, isotimeToMjd)] else [])
            && GNights(plans, k) == GNights(plans, k - 1) + (if GScheduled(p) then [k - 1] else [])
  {
  }

  /** No night with a g window is missed: its trigger is among the g-band
      triggers. */
  lemma {:induction false} GTriggersComplete(plans: seq<NightPlan>, k: nat, field: nat, isotimeToMjd: string -> real)
    requires k <= ZipLength(plans)
    ensures forall i :: 0 <= i < k && GScheduled(plans[i]) ==>
              GTrigger(NIGHTS[i], plans[i], field, isotimeToMjd) in GTriggers(plans, k, field, isotimeToMjd)
  {
    if k > 0 {
      GTriggersComplete(plans, k - 1, field, isotimeToMjd);
    }
  }

  /** The r-band triggers of the first k nights follow the nights with an r
      window in order. */
  lemma {:induction false} RTriggersFollowNights(plans: seq<NightPlan>, k: nat, field: nat, isotimeToMjd: string -> real)
    requires k <= ZipLength(plans)
    ensures RFollows(plans, RTriggers(plans, k, field, isotimeToMjd), RNights(plans, k), field, isotimeToMjd)
  {
    if k > 0 {
      RTriggersFollowNights(plans, k - 1, field, isotimeToMjd);
      RTriggersStep(plans, k, field, isotimeToMjd);
      RFollowsExtend(plans, k, field, isotimeToMjd);
    }
  }

  /** Night k - 1 adds its r trigger and its index exactly when its r
      window is scheduled. */
  lemma RTriggersStep(plans: seq<NightPlan>, k: nat, field: nat, isotimeToMjd: string -> real)
    requires 0 < k <= ZipLength(plans)
    ensures var p := plans[k - 1];
            var added := RScheduled(NIGHTS[k - 1], p);
            && RTriggers(plans, k, field, isotimeToMjd)
               == RTriggers(plans, k - 1, field, isotimeToMjd) + (if added then [RTrigger(NIGHTS[k - 1], p, field, isotimeToMjd)] else [])
            && RNights(plans, k) == RNights(plans, k - 1) + (if added then [k - 1] else [])
  {
  }

  /** The r-band triggers follow their nights: ts[a] is built from night
      idx[a]. */
  predicate RFollows(plans: seq<NightPlan>, ts: seq<PlannedTrigger>, idx: seq<nat>, field: nat, isotimeToMjd: string -> real) {
    && |ts| == |idx|
    && forall a :: 0 <= a < |ts| ==>
         idx[a] < |plans| && idx[a] < |NIGHTS| && RScheduled(NIGHTS[idx[a]], plans[idx[a]])
         && ts[a] == RTrigger(NIGHTS[idx[a]], plans[idx[a]], field, isotimeToMjd)
  }

  /** Appending night k - 1 keeps the r-band triggers following their nights. */
  lemma RFollowsExtend(plans: seq<NightPlan>, k: nat, field: nat, isotimeToMjd: string -> real)
    requires 0 < k <= ZipLength(plans)
    requires RFollows(plans, RTriggers(plans, k - 1, field, isotimeToMjd), RNights(plans, k - 1), field, isotimeToMjd)
    ensures RFollows(plans, RTriggers(plans, k, field, isotimeToMjd), RNights(plans, k), field, isotimeToMjd)
  {
    RTriggersStep(plans, k, field, isotimeToMjd);
    var ts', idx' := RTriggers(plans, k - 1, field, isotimeToMjd), RNights(plans, k - 1);
    var ts, idx := RTriggers(plans, k, field, isotimeToMjd), RNights(plans, k);
    forall a | 0 <= a < |ts|
      ensures idx[a] < |plans| && idx[a] < |NIGHTS| && RScheduled(NIGHTS[idx[a]], plans[idx[a]])
              && ts[a] == RTrigger(NIGHTS[idx[a]], plans[idx[a]], field, isotimeToMjd)
    {
      if a < |ts'| {
        assert ts[a] == ts'[a] && idx[a] == idx'[a];
      }
    }
  }

  /** No night with an r window is missed. */
  lemma {:induction false} RTriggersComplete(plans: seq<NightPlan>, k: nat, field: nat, isotimeToMjd: string -> real)
    requires k <= ZipLength(plans)
    ensures forall i :: 0 <= i < k && RScheduled(NIGHTS[i], plans[i]) ==>
              RTrigger(NIGHTS[i], plans[i], field, isotimeToMjd) in RTriggers(plans, k, field, isotimeToMjd)
  {
    if k > 0 {
      RTriggersComplete(plans, k - 1, field, isotimeToMjd);
      var ts', ts := RTriggers(plans, k - 1, field, isotimeToMjd), RTriggers(plans, k, field, isotimeToMjd);
      var p := plans[k - 1];
      assert ts == ts' + (if RScheduled(NIGHTS[k - 1], p) then [RTrigger(NIGHTS[k - 1], p, field, isotimeToMjd)] else []);
      forall i | 0 <= i < k && RScheduled(NIGHTS[i], plans[i])
        ensures RTrigger(NIGHTS[i], plans[i], field, isotimeToMjd) in ts
      {
        if i < k - 1 {
          assert RTrigger(NIGHTS[i], plans[i], field, isotimeToMjd) in ts';
        }
      }
    }
  }

  function Header(name: string): string {
    "\nYour multi-day observation plan for " + name + "\n" + RULE + "\n" + "g-band observation windows\n"
  }

  const MIDDLE: string := RULE + "\n" + "\n" + RULE + "\n" + "r-band observation windows\n"

  const FOOTER: string := RULE + "\n\n"

  /** The summary text: a header naming the event, one g line per night, a
      separator, one r line per night and a closing rule. */
  function SummaryText(name: string, plans: seq<NightPlan>): (r: string)
    ensures |r| >= |Header(name)| + |MIDDLE| + |FOOTER|
    ensures r[..|Header(name)|] == Header(name)
    ensures r[|r| - |FOOTER|..] == FOOTER
  {
    var n := ZipLength(plans);
    Header(name) + GText(plans, n) + MIDDLE + RText(plans, n) + FOOTER
  }

  /** The planned triggers: every g-band trigger, then every r-band trigger. */
  function PlannedTriggers(plans: seq<NightPlan>, field: nat, isotimeToMjd: string -> real)
    : (ts: seq<PlannedTrigger>)
    ensures |ts| <= 8
    ensures forall t :: t in ts ==> t.fieldId == field && t.filterId in {1, 2}
  {
    var n := ZipLength(plans);
    GTriggers(plans, n, field, isotimeToMjd) + RTriggers(plans, n, field, isotimeToMjd)
  }

  /** Every g-band trigger precedes every r-band trigger. */
  lemma PlannedTriggersOrdered(plans: seq<NightPlan>, field: nat, isotimeToMjd: string -> real)
    ensures var ts := PlannedTriggers(plans, field, isotimeToMjd);
            forall i, j :: 0 <= i < j < |ts| && ts[i].filterId == 2 ==> ts[j].filterId == 2
  {
    var n := ZipLength(plans);
    var g := GTriggers(plans, n, field, isotimeToMjd);
    var r := RTriggers(plans, n, field, isotimeToMjd);
    var ts := g + r;
    forall i | 0 <= i < |ts|
      ensures ts[i].fieldId == field && ts[i].filterId in {1, 2}
      ensures ts[i].filterId == 2 <==> i >= |g|
    {
      if i < |g| {
        assert ts[i] in g;
      } else {
        assert ts[i] == r[i - |g|];
        assert ts[i] in r;
      }
    }
  }

  /** The one-filter nights never get an r-band trigger and always print
      "NO OBS SCHEDULED" in the r band, whatever their windows are. */
  lemma OneFilterNightsHaveNoRBand(plans: seq<NightPlan>, i: nat, field: nat, isotimeToMjd: string -> real)
    requires i < ZipLength(plans) && 1 <= i <= 4
    ensures RLine(NIGHTS[i], plans[i]) == NoObsLine(NIGHTS[i])
    ensures RTriggers(plans, i + 1, field, isotimeToMjd) == RTriggers(plans, i, field, isotimeToMjd)
  {
  }

  /** A night without a g window prints "NOT OBSERVABLE" and adds no g-band
      trigger. */
  lemma UnobservableNightAddsNoTrigger(plans: seq<NightPlan>, i: nat, field: nat, isotimeToMjd: string -> real)
    requires i < ZipLength(plans) && !GScheduled(plans[i])
    ensures GLine(NIGHTS[i], plans[i]) == NotObservableLine(NIGHTS[i])
    ensures GTriggers(plans, i + 1, field, isotimeToMjd) == GTriggers(plans, i, field, isotimeToMjd)
  {
  }

  /** With windows and a flag on all six nights there is a g-band trigger
      for every night, in night order. */
  lemma {:induction false} FullGBand(plans: seq<NightPlan>, field: nat, isotimeToMjd: string -> real)
    requires |plans| == |NIGHTS|
    requires forall i :: 0 <= i < |plans| ==> GScheduled(plans[i])
    ensures var g := GTriggers(plans, |NIGHTS|, field, isotimeToMjd);
            |g| == 6 && forall i :: 0 <= i < 6 ==> g[i] == GTrigger(NIGHTS[i], plans[i], field, isotimeToMjd)
  {
    var f := isotimeToMjd;
    var g := seq(6, i requires 0 <= i < 6 => GTrigger(NIGHTS[i], plans[i], field, f));
    for k := 0 to 6
      invariant GTriggers(plans, k, field, f) == g[..k]
    {
      assert GScheduled(plans[k]);
      assert g[..k + 1] == g[..k] + [g[k]];
    }
    assert g[..6] == g;
  }

  /** With r windows and a flag on the first and last nights, the r band
      has exactly those two triggers. */
  lemma FullRBand(plans: seq<NightPlan>, field: nat, isotimeToMjd: string -> real)
    requires |plans| == |NIGHTS|
    requires RScheduled(1, plans[0]) && RScheduled(9, plans[5])
    ensures RTriggers(plans, |NIGHTS|, field, isotimeToMjd)
            == [RTrigger(1, plans[0], field, isotimeToMjd), RTrigger(9, plans[5], field, isotimeToMjd)]
  {
    var f := isotimeToMjd;
    var r0 := RTrigger(1, plans[0], field, f);
    assert RTriggers(plans, 1, field, f) == [r0];
    assert RTriggers(plans, 2, field, f) == [r0];
    assert RTriggers(plans, 3, field, f) == [r0];
    assert RTriggers(plans, 4, field, f) == [r0];
    assert RTriggers(plans, 5, field, f) == [r0];
  }

  /** A fully observable plan has eight triggers: six g-band ones (300 s on
      night 1, then 30 s) followed by r-band ones on nights 1 (300 s) and 9
      (30 s). */
  lemma FullPlanTriggers(plans: seq<NightPlan>, field: nat, isotimeToMjd: string -> real)
    requires |plans| == |NIGHTS|
    requires forall i :: 0 <= i < |plans| ==> GScheduled(plans[i])
    requires RScheduled(1, plans[0]) && RScheduled(9, plans[5])
    ensures var ts := PlannedTriggers(plans, field, isotimeToMjd);
            && |ts| == 8
            && (forall i :: 0 <= i < 6 ==>
                  ts[i].filterId == 1 && plans[i].gStart.Some? && ts[i].mjdStart == isotimeToMjd(plans[i].gStart.value))
            && ts[6].filterId == 2 && ts[7].filterId == 2
            && ts[6].mjdStart == isotimeToMjd(plans[0].rStart.value)
            && ts[7].mjdStart == isotimeToMjd(plans[5].rStart.value)
            && ts[0].exposureTime == 300 && ts[6].exposureTime == 300
            && (forall i :: 1 <= i < 6 ==> ts[i].exposureTime == 30)
            && ts[7].exposureTime == 30
  {
    var g := GTriggers(plans, |NIGHTS|, field, isotimeToMjd);
    var r := RTriggers(plans, |NIGHTS|, field, isotimeToMjd);
    var ts := PlannedTriggers(plans, field, isotimeToMjd);
    assert ts == g + r;
    FullGBand(plans, field, isotimeToMjd);
    FullRBand(plans, field, isotimeToMjd);
    forall i | 0 <= i < 6
      ensures ts[i].filterId == 1 && ts[i].mjdStart == isotimeToMjd(plans[i].gStart.value)
      ensures ts[i].exposureTime == (if i == 0 then 300 else 30)
    {
      assert ts[i] == g[i] == GTrigger(NIGHTS[i], plans[i], field, isotimeToMjd);
      ScheduleOfNights(i);
    }
    assert ts[6] == r[0] && ts[7] == r[1];
    ScheduleOfNights(0);
    ScheduleOfNights(5);
  }

  /** One line of print_triggers: the short start time, the exposure, the
      band letter and the field. */
  function TriggerLine(t: PlannedTrigger, mjdToIsotime: real -> string): (line: string)
    requires t.filterId in BANDS
    ensures var start := Utils.ShortTime(mjdToIsotime(t.mjdStart));
            var tail := " // field=" + NatToString(t.fieldId);
            && |line| >= |start| + |tail|
            && line[..|start|] == start
            && line[|line| - |tail|..] == tail
  {
    Utils.ShortTime(mjdToIsotime(t.mjdStart)) + " // " + NatToString(t.exposureTime) + " s exposure // filter="
    + BANDS[t.filterId] + " // field=" + NatToString(t.fieldId)
  }

  function TriggerLines(ts: seq<PlannedTrigger>, mjdToIsotime: real -> string): (lines: seq<string>)
    requires forall t :: t in ts ==> t.filterId in BANDS
    ensures |lines| == |ts|
    ensures forall i :: 0 <= i < |ts| ==> lines[i] == TriggerLine(ts[i], mjdToIsotime)
  {
    if ts == [] then []
    else TriggerLines(ts[..|ts| - 1], mjdToIsotime) + [TriggerLine(ts[|ts| - 1], mjdToIsotime)]
  }

  /** The g-band loop of the plan assembly: a line per night and a trigger
      per scheduled night. */
  method GBandWindows(plans: seq<NightPlan>, field: nat, isotimeToMjd: string -> real)
    returns (text: string, ts: seq<PlannedTrigger>)
    ensures text == GText(plans, ZipLength(plans))
    ensures ts == GTriggers(plans, ZipLength(plans), field, isotimeToMjd)
  {
    var n := ZipLength(plans);
    text, ts := "", [];
    var i := 0;
    while i < n
      invariant 0 <= i <= n
      invariant text == GText(plans, i)
      invariant ts == GTriggers(plans, i, field, isotimeToMjd)
    {
      var p, night := plans[i], NIGHTS[i];
      var line: string;
      if p.gStart.Some? && p.gEnd.Some? && p.observable.Some? {
        var exposureTime := if night in SHORT_NIGHTS then 30 else 300;
        line := "Night " + NatToString(night) + " " + Utils.ShortTime(p.gStart.value) + " - "
                + Utils.ShortTime(p.gEnd.value) + " (" + NatToString(exposureTime) + "s)\n";
        ts := ts + [PlannedTrigger(field, 1, isotimeToMjd(p.gStart.value), isotimeToMjd(p.gEnd.value), exposureTime)];
      } else {
        line := "Night " + NatToString(night) + " NOT OBSERVABLE\n";
      }
      assert line == GLine(NIGHTS[i], plans[i]);
      text := text + line;
      i := i + 1;
    }
  }

  /** The r-band loop: a line per night and a trigger per scheduled night
      outside the one-filter nights. */
  method RBandWindows(plans: seq<NightPlan>, field: nat, isotimeToMjd: string -> real)
    returns (text: string, ts: seq<PlannedTrigger>)
    ensures text == RText(plans, ZipLength(plans))
    ensures ts == RTriggers(plans, ZipLength(plans), field, isotimeToMjd)
  {
    var n := ZipLength(plans);
    text, ts := "", [];
    var i := 0;
    while i < n
      invariant 0 <= i <= n
      invariant text == RText(plans, i)
      invariant ts == RTriggers(plans, i, field, isotimeToMjd)
    {
      var p, night := plans[i], NIGHTS[i];
      var line: string;
      if p.rStart.Some? && p.rEnd.Some? && p.observable.Some? && night !in ONE_FILTER_NIGHTS {
        var exposureTime := if night in SHORT_NIGHTS then 30 else 300;
        line := "Night " + NatToString(night) + " " + Utils.ShortTime(p.rStart.value) + " - "
                + Utils.ShortTime(p.rEnd.value) + " (" + NatToString(exposureTime) + "s)\n";
        ts := ts + [PlannedTrigger(field, 2, isotimeToMjd(p.rStart.value), isotimeToMjd(p.rEnd.value), exposureTime)];
      } else if night !in ONE_FILTER_NIGHTS {
        line := "Night " + NatToString(night) + " NOT OBSERVABLE\n";
      } else {
        line := "Night " + NatToString(night) + " NO OBS SCHEDULED\n";
      }
      assert line == RLine(NIGHTS[i], plans[i]);
      text := text + line;
      i := i + 1;
    }
  }

  class MultiDayObservation {
    const name: string
    var summarytext: string
    var triggers: seq<PlannedTrigger>

    /** Every trigger's filter has a band letter. */
    ghost predicate Valid()
      reads this
    {
      forall t :: t in triggers ==> t.filterId in BANDS
    }

    /** Assembles the summary and the triggers from the gathered night plans.
        Gathering the plans (the single-night planner, the PDF of plots) is
        not part of this model: `plans` holds its result, `recommendedField`
        the chosen field and `isotimeToMjd` the time conversion. */
    constructor (name: string, plans: seq<NightPlan>, recommendedField: nat, isotimeToMjd: string -> real)
      ensures this.name == name
      ensures summarytext == SummaryText(name, plans)
      ensures triggers == PlannedTriggers(plans, recommendedField, isotimeToMjd)
      ensures Valid()
    {
      var gLines, gTriggers := GBandWindows(plans, recommendedField, isotimeToMjd);
      var rLines, rTriggers := RBandWindows(plans, recommendedField, isotimeToMjd);
      this.name := name;
      summarytext := Header(name) + gLines + MIDDLE + rLines + FOOTER;
      triggers := gTriggers + rTriggers;
    }

    /** print_triggers: one line per trigger, separated by newlines (the loop
        appends a newline after every line and then drops the last character;
        no triggers give the empty string). The printing is not modelled. */
    method PrintTriggers(mjdToIsotime: real -> string) returns (message: string)
      requires Valid()
      ensures message == Join(TriggerLines(triggers, mjdToIsotime), "\n")
    {
      message := "";
      var i := 0;
      while i < |triggers|
        invariant 0 <= i <= |triggers|
        invariant message == ConcatEach(TriggerLines(triggers[..i], mjdToIsotime), "\n")
      {
        var trigger := triggers[i];
        var tStart := Utils.ShortTime(mjdToIsotime(trigger.mjdStart));
        var line := tStart + " // " + NatToString(trigger.exposureTime) + " s exposure // filter="
                    + BANDS[trigger.filterId] + " // field=" + NatToString(trigger.fieldId);
        assert line == TriggerLine(trigger, mjdToIsotime);
        assert triggers[..i + 1][..i] == triggers[..i];
        assert TriggerLines(triggers[..i + 1], mjdToIsotime) == TriggerLines(triggers[..i], mjdToIsotime) + [line];
        message := message + line + "\n";
        i := i + 1;
      }
      assert triggers[..i] == triggers;
      message := DropLast(message, 1);
      ConcatEachThenDropIsJoin(TriggerLines(triggers, mjdToIsotime), "\n");
    }
  }
}
