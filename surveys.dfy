/**
 * The academic surveys dashboard (`SurveysPage`): the enrolled groups, each with every
 * available survey and whether the student has answered it for that group; the
 * completed / pending statistics; and the dialog through which one survey is answered.
 *
 * The three REST reads are inputs: the groups list, the surveys list and, per (group,
 * event) pair, the status check.
 */
module Surveys {
  import opened Options
  import opened Text

  datatype Mapping = Mapping(event: string)
  datatype Survey = Survey(id: int, title: string, mapping: Mapping)
  datatype Group = Group(id: string, name: string)

  /** A group id of `None` is the `NaN` that `parseInt` gives for a non-numeric id. */
  datatype SurveyStatus = SurveyStatus(hasResponded: bool, event: string, groupId: Option<int>)

  /** A survey together with its status for one group. */
  datatype SurveyEntry = SurveyEntry(survey: Survey, status: SurveyStatus)
  datatype GroupWithSurveys = GroupWithSurveys(group: Group, surveys: seq<SurveyEntry>)

  /** The survey chosen in the dialog, with the group and event it is answered for. */
  datatype Selection = Selection(survey: Survey, groupId: string, event: string)

  /** The status check's outcome: a non-OK reply and a network error both land in `catch`. */
  datatype StatusReply = StatusFailed | StatusFetched(status: SurveyStatus)

  /** The outcome of a list read; a failure carries the message of the error it threw. */
  datatype FetchReply<T> = FetchFailed(message: string) | Fetched(value: T)

  /** The `Authorization` header each request sends: `Bearer ${token?.replace(/^"|"$/g, '')}`. */
  function BearerHeader(token: Option<string>): (h: string)
    ensures |h| >= 7 && h[..7] == "Bearer "
    ensures token.Some? ==> h[7..] == StripQuotes(token.value)
    ensures token.None? ==> h[7..] == "undefined"
  {
    "Bearer " + (if token.Some? then StripQuotes(token.value) else "undefined")
  }

  /** A token stored with its JSON quotes is sent bare; a missing one is sent as "undefined". */
  lemma BearerHeaderOfStoredToken(s: string)
    ensures BearerHeader(Some("\"" + s + "\"")) == "Bearer " + s
    ensures BearerHeader(Some(s)) == "Bearer " + s || (|s| > 0 && (s[0] == '"' || s[|s| - 1] == '"'))
    ensures BearerHeader(None) == "Bearer undefined"
  {
    StripQuotesQuoted(s);
    if s == [] || (s[0] != '"' && s[|s| - 1] != '"') {
      StripQuotesUnquoted(s);
    }
  }

  // ---------------------------------------------------------------- loading

  /** `checkSurveyStatus`: the server's status, or on any failure "not answered" for the
      same event and the group id as `parseInt` reads it. */
  function CheckSurveyStatus(groupId: string, event: string, reply: StatusReply): (s: SurveyStatus)
    ensures reply.StatusFetched? ==> s == reply.status
    ensures reply.StatusFailed? ==> !s.hasResponded && s.event == event && s.groupId == JsParseInt(groupId)
  {
    match reply
    case StatusFetched(status) => status
    case StatusFailed => SurveyStatus(false, event, JsParseInt(groupId))
  }

  /** A failed check for a numeric group id keeps that id. */
  lemma FailedCheckKeepsGroupId(groupId: int, event: string)
    ensures CheckSurveyStatus(IntToString(groupId), event, StatusFailed)
         == SurveyStatus(false, event, Some(groupId))
  {
    ParseIntOfIntToString(groupId);
  }

  /** The status of `survey` for `group`, as the response check for this pair returns it. */
  function StatusFor(group: Group, survey: Survey, replies: (string, string) -> StatusReply): SurveyStatus {
    CheckSurveyStatus(group.id, survey.mapping.event, replies(group.id, survey.mapping.event))
  }

  /** `surveys.map(survey => ({...survey, status}))` for one group. */
  function WithStatuses(group: Group, surveys: seq<Survey>, replies: (string, string) -> StatusReply): (r: seq<SurveyEntry>)
    ensures |r| == |surveys|
    ensures forall j :: 0 <= j < |surveys| ==> r[j].survey == surveys[j] && r[j].status == StatusFor(group, surveys[j], replies)
  {
    if surveys == [] then []
    else [SurveyEntry(surveys[0], StatusFor(group, surveys[0], replies))] + WithStatuses(group, surveys[1..], replies)
  }

  /** The combined data: one entry per enrolled group, in order, each listing every survey in order. */
  function Combine(groups: seq<Group>, surveys: seq<Survey>, replies: (string, string) -> StatusReply)
    : (r: seq<GroupWithSurveys>)
    ensures |r| == |groups|
    ensures forall i :: 0 <= i < |groups| ==>
      r[i].group == groups[i] && r[i].surveys == WithStatuses(groups[i], surveys, replies)
  {
    if groups == [] then []
    else [GroupWithSurveys(groups[0], WithStatuses(groups[0], surveys, replies))] + Combine(groups[1..], surveys, replies)
  }

  // ---------------------------------------------------------------- statistics

  /** How many entries are answered: `surveys.filter(s => s.status.hasResponded).length`. */
  function RespondedCount(es: seq<SurveyEntry>): (n: nat)
    ensures n <= |es|
  {
    if es == [] then 0 else (if es[0].status.hasResponded then 1 else 0) + RespondedCount(es[1..])
  }

  /** `totalSurveys`: the sum of the groups' survey counts. */
  function TotalSurveys(gs: seq<GroupWithSurveys>): nat {
    if gs == [] then 0 else |gs[0].surveys| + TotalSurveys(gs[1..])
  }

  /** The total is 0 exactly when no group lists a survey. */
  lemma {:induction false} TotalSurveysZero(gs: seq<GroupWithSurveys>)
    ensures TotalSurveys(gs) == 0 <==> forall i :: 0 <= i < |gs| ==> gs[i].surveys == []
  {
    if gs != [] {
      TotalSurveysZero(gs[1..]);
      assert forall i :: 1 <= i < |gs| ==> gs[i] == gs[1..][i - 1];
    }
  }

  /** `completedSurveys`: the answered entries over all groups, never more than the total. */
  function CompletedSurveys(gs: seq<GroupWithSurveys>): (c: nat)
    ensures c <= TotalSurveys(gs)
  {
    if gs == [] then 0 else RespondedCount(gs[0].surveys) + CompletedSurveys(gs[1..])
  }

  /** `pendingSurveys = totalSurveys - completedSurveys`: never negative. */
  function PendingSurveys(gs: seq<GroupWithSurveys>): (p: int)
    ensures 0 <= p <= TotalSurveys(gs)
    ensures p == TotalSurveys(gs) <==> CompletedSurveys(gs) == 0
  {
    TotalSurveys(gs) - CompletedSurveys(gs)
  }

  /** Every entry counts as answered exactly when it has responded. */
  lemma {:induction false} RespondedCountAllOrNone(es: seq<SurveyEntry>)
    ensures RespondedCount(es) == |es| <==> forall j :: 0 <= j < |es| ==> es[j].status.hasResponded
    ensures RespondedCount(es) == 0 <==> forall j :: 0 <= j < |es| ==> !es[j].status.hasResponded
  {
    if es != [] {
      RespondedCountAllOrNone(es[1..]);
      assert forall j :: 1 <= j < |es| ==> es[j] == es[1..][j - 1];
    }
  }

  /** The status check for every pair failed. */
  function NoStatus(groupId: string, event: string): StatusReply {
    StatusFailed
  }

  /** Freshly combined data, with every status check failed, has everything pending. */
  lemma {:induction false} AllChecksFailedAllPending(groups: seq<Group>, surveys: seq<Survey>)
    ensures CompletedSurveys(Combine(groups, surveys, NoStatus)) == 0
    ensures TotalSurveys(Combine(groups, surveys, NoStatus)) == |groups| * |surveys|
  {
    if groups != [] {
      var gs := Combine(groups, surveys, NoStatus);
      var rest := Combine(groups[1..], surveys, NoStatus);
      AllChecksFailedAllPending(groups[1..], surveys);
      var es := WithStatuses(groups[0], surveys, NoStatus);
      assert gs[1..] == rest;
      assert gs[0].surveys == es;
      assert forall j :: 0 <= j < |es| ==> !es[j].status.hasResponded;
      RespondedCountAllOrNone(es);
      OneMoreRow(|surveys|, |groups| - 1);
    }
  }

  /** `n + k * n == (k + 1) * n`, kept apart so the induction above stays linear. */
  lemma OneMoreRow(n: nat, k: nat)
    ensures n + k * n == (k + 1) * n
  {
  }

  // ---------------------------------------------------------------- marking one pair answered

  /** `getSurveyStatus` picks one of the page's status configurations. */
  datatype StatusKey = Pending | InProgress | Completed

  /** `getSurveyStatus(hasResponded)` */
  function GetSurveyStatus(hasResponded: bool): (k: StatusKey)
    ensures k == Completed <==> hasResponded
    ensures k == Pending <==> !hasResponded
  {
    if hasResponded then Completed else Pending
  }

  /** The label each status configuration shows. */
  function StatusLabel(k: StatusKey): string {
    match k
    case Pending => "Pendiente"
    case InProgress => "En progreso"
    case Completed => "Completada"
  }

  /** A card reads "Completada" when answered and "Pendiente" otherwise; no card reads
      "En progreso". */
  lemma ShownLabels(hasResponded: bool)
    ensures StatusLabel(GetSurveyStatus(hasResponded)) == (if hasResponded then "Completada" else "Pendiente")
    ensures StatusLabel(GetSurveyStatus(hasResponded)) != "En progreso"
  {
  }

  /** The entry with its `hasResponded` flag set. */
  function Answered(e: SurveyEntry): SurveyEntry {
    e.(status := e.status.(hasResponded := true))
  }

  /** The entries of one group with those for `event` marked answered. */
  function MarkInGroup(es: seq<SurveyEntry>, event: string): seq<SurveyEntry> {
    seq(|es|, j requires 0 <= j < |es| => if es[j].survey.mapping.event == event then Answered(es[j]) else es[j])
  }

  /** The nested update of `handleSurveySubmit`: in the group with id `groupId`, every survey
      whose mapping event is `event` becomes answered. Nothing else changes. */
  function MarkResponded(gs: seq<GroupWithSurveys>, groupId: string, event: string): (r: seq<GroupWithSurveys>)
    ensures |r| == |gs|
    ensures forall i :: 0 <= i < |gs| ==> r[i].group == gs[i].group && |r[i].surveys| == |gs[i].surveys|
    ensures forall i, j :: 0 <= i < |gs| && 0 <= j < |gs[i].surveys| ==>
      var before, after := gs[i].surveys[j], r[i].surveys[j];
      after.survey == before.survey && after.status.event == before.status.event
      && after.status.groupId == before.status.groupId
      && (after.status.hasResponded <==>
            before.status.hasResponded || (gs[i].group.id == groupId && before.survey.mapping.event == event))
    ensures forall i :: 0 <= i < |gs| && gs[i].group.id != groupId ==> r[i] == gs[i]
    ensures forall i, j :: 0 <= i < |gs| && 0 <= j < |gs[i].surveys| && gs[i].surveys[j].survey.mapping.event != event ==>
      r[i].surveys[j] == gs[i].surveys[j]
  {
    seq(|gs|, i requires 0 <= i < |gs| =>
      if gs[i].group.id == groupId then gs[i].(surveys := MarkInGroup(gs[i].surveys, event)) else gs[i])
  }

  /** Marking twice is marking once. */
  lemma MarkRespondedIdempotent(gs: seq<GroupWithSurveys>, groupId: string, event: string)
    ensures MarkResponded(MarkResponded(gs, groupId, event), groupId, event) == MarkResponded(gs, groupId, event)
  {
    var once := MarkResponded(gs, groupId, event);
    var twice := MarkResponded(once, groupId, event);
    forall i | 0 <= i < |gs| ensures twice[i] == once[i] {
      assert twice[i].surveys == once[i].surveys;
    }
  }

  lemma {:induction false} MarkInGroupCount(es: seq<SurveyEntry>, event: string)
    ensures RespondedCount(es) <= RespondedCount(MarkInGroup(es, event))
  {
    if es != [] {
      MarkInGroupCount(es[1..], event);
      assert MarkInGroup(es, event)[1..] == MarkInGroup(es[1..], event);
    }
  }

  /** A submit keeps the total and never lowers the completed count. */
  lemma {:induction false} MarkRespondedStatistics(gs: seq<GroupWithSurveys>, groupId: string, event: string)
    ensures TotalSurveys(MarkResponded(gs, groupId, event)) == TotalSurveys(gs)
    ensures CompletedSurveys(gs) <= CompletedSurveys(MarkResponded(gs, groupId, event))
  {
    if gs != [] {
      MarkRespondedStatistics(gs[1..], groupId, event);
      assert MarkResponded(gs, groupId, event)[1..] == MarkResponded(gs[1..], groupId, event);
      if gs[0].group.id == groupId {
        MarkInGroupCount(gs[0].surveys, event);
      }
    }
  }

  // ---------------------------------------------------------------- the page

  class SurveysPage {
    var groups: seq<GroupWithSurveys>
    var selected: Option<Selection>
    var dialogOpen: bool
    var loading: bool
    var error: Option<string>

    /** The page before its data is loaded: the spinner is on. */
    constructor ()
      ensures groups == [] && selected.None? && !dialogOpen && loading && error.None?
    {
      groups, selected, dialogOpen, loading, error := [], None, false, true, None;
    }

    /** The load effect. It runs only with a truthy token (an empty or missing one leaves the
        spinner on). When either list read fails the groups stay as they were and the error
        is shown; otherwise every group is combined with every survey. */
    method LoadData(token: Option<string>, groupsReply: FetchReply<seq<Group>>,
                    surveysReply: FetchReply<seq<Survey>>, replies: (string, string) -> StatusReply)
      modifies this
      ensures token.None? || token.value == "" ==>
        groups == old(groups) && loading == old(loading) && error == old(error)
      ensures token.Some? && token.value != "" ==> !loading
      ensures token.Some? && token.value != "" && groupsReply.Fetched? && surveysReply.Fetched? ==>
        groups == Combine(groupsReply.value, surveysReply.value, replies) && error.None?
      ensures token.Some? && token.value != "" && groupsReply.FetchFailed? ==>
        groups == old(groups) && error == Some(groupsReply.message)
      ensures token.Some? && token.value != "" && groupsReply.Fetched? && surveysReply.FetchFailed? ==>
        groups == old(groups) && error == Some(surveysReply.message)
      ensures selected == old(selected) && dialogOpen == old(dialogOpen)
    {
      if token.None? || token.value == "" {
        return;
      }
      loading, error := true, None;
      if groupsReply.FetchFailed? {
        error := Some(groupsReply.message);
      } else if surveysReply.FetchFailed? {
        error := Some(surveysReply.message);
      } else {
        groups := Combine(groupsReply.value, surveysReply.value, replies);
      }
      loading := false;
    }

    /** `handleSurveyClick`: an answered survey cannot be opened; any other is selected and
        the dialog opens. */
    method HandleSurveyClick(survey: Survey, groupId: string, event: string, hasResponded: bool)
      modifies this
      ensures hasResponded ==> selected == old(selected) && dialogOpen == old(dialogOpen)
      ensures !hasResponded ==> selected == Some(Selection(survey, groupId, event)) && dialogOpen
      ensures groups == old(groups) && loading == old(loading) && error == old(error)
    {
      if hasResponded {
        return;
      }
      selected, dialogOpen := Some(Selection(survey, groupId, event)), true;
    }

    /** Clicking the card of survey `j` in group `i`: `!isCompleted && handleSurveyClick(...)`. */
    method ClickCard(i: nat, j: nat)
      requires i < |groups| && j < |groups[i].surveys|
      modifies this
      ensures var g, e := old(groups)[i].group, old(groups)[i].surveys[j];
        if e.status.hasResponded then selected == old(selected) && dialogOpen == old(dialogOpen)
        else selected == Some(Selection(e.survey, g.id, e.survey.mapping.event)) && dialogOpen
      ensures groups == old(groups) && loading == old(loading) && error == old(error)
    {
      var g, e := groups[i].group, groups[i].surveys[j];
      var isCompleted := GetSurveyStatus(e.status.hasResponded) == Completed;
      if !isCompleted {
        HandleSurveyClick(e.survey, g.id, e.survey.mapping.event, e.status.hasResponded);
      }
    }

    /** The dialog's own open/close control (`onOpenChange`). */
    method SetDialogOpen(open: bool)
      modifies this
      ensures dialogOpen == open
      ensures groups == old(groups) && selected == old(selected) && loading == old(loading) && error == old(error)
    {
      dialogOpen := open;
    }

    /** `handleCloseDialog` */
    method HandleCloseDialog()
      modifies this
      ensures !dialogOpen && selected.None?
      ensures groups == old(groups) && loading == old(loading) && error == old(error)
    {
      dialogOpen, selected := false, None;
    }

    /** `handleSurveySubmit`: with nothing selected it does nothing; otherwise the selected
        (group, event) pair is marked answered and the dialog closes. */
    method HandleSurveySubmit()
      modifies this
      ensures old(selected).None? ==> groups == old(groups) && selected.None? && dialogOpen == old(dialogOpen)
      ensures old(selected).Some? ==>
        groups == MarkResponded(old(groups), old(selected).value.groupId, old(selected).value.event)
        && !dialogOpen && selected.None?
      ensures TotalSurveys(groups) == TotalSurveys(old(groups))
      ensures CompletedSurveys(old(groups)) <= CompletedSurveys(groups)
      ensures loading == old(loading) && error == old(error)
    {
      if selected.None? {
        return;
      }
      MarkRespondedStatistics(groups, selected.value.groupId, selected.value.event);
      groups := MarkResponded(groups, selected.value.groupId, selected.value.event);
      HandleCloseDialog();
    }
  }
}
