/**
 * The job completion form (components/JobCompletionForm.tsx): its two
 * counters over the completions recorded so far, and the submit handler
 * that validates the service number, builds a completion worth one job and
 * hands it on whether or not the spreadsheet could be reached.
 */
module JobCompletionForm {
  import opened Wrappers
  import opened Types
  import opened Text
  import App
  import Backend
  import ManagerDashboard

  // ---- counters ----

  /** `reduce((acc, curr) => acc + curr.isAdedi, 0)` */
  function Adedi(jobs: seq<JobCompletionReport>): int {
    if jobs == [] then 0 else jobs[0].isAdedi + Adedi(jobs[1..])
  }

  /** `filter(jc => jc.isTipi === t)`: the completions of type `t`, in order. */
  function OfType(jobs: seq<JobCompletionReport>, t: JobType): (sel: seq<JobCompletionReport>)
    ensures |sel| <= |jobs|
    ensures forall r :: r in sel <==> r in jobs && r.isTipi == t
  {
    if jobs == [] then []
    else if jobs[0].isTipi == t then [jobs[0]] + OfType(jobs[1..], t)
    else OfType(jobs[1..], t)
  }

  /**
   * The filter works element by element, so it keeps the completions' order
   * and multiplicity: filtering a concatenation filters each part.
   */
  lemma {:induction false} OfTypeConcat(a: seq<JobCompletionReport>, b: seq<JobCompletionReport>, t: JobType)
    ensures OfType(a + b, t) == OfType(a, t) + OfType(b, t)
  {
    if a != [] {
      assert (a + b)[0] == a[0] && (a + b)[1..] == a[1..] + b;
      OfTypeConcat(a[1..], b, t);
    } else {
      assert a + b == b;
    }
  }

  /** One completion is kept exactly when it has the chosen type. */
  lemma OfTypeSingle(r: JobCompletionReport, t: JobType)
    ensures OfType([r], t) == if r.isTipi == t then [r] else []
  {
  }

  /** `arizaCount` */
  function ArizaCount(jobs: seq<JobCompletionReport>): int {
    Adedi(OfType(jobs, Ariza))
  }

  /** `tesisCount` */
  function TesisCount(jobs: seq<JobCompletionReport>): int {
    Adedi(OfType(jobs, Tesis))
  }

  /** `totalCount` */
  function TotalCount(jobs: seq<JobCompletionReport>): int {
    ArizaCount(jobs) + TesisCount(jobs)
  }

  /** Every completion is ARIZA or TESİS, so the two counters share out the whole sum. */
  lemma {:induction false} CountersShareAdedi(jobs: seq<JobCompletionReport>)
    ensures TotalCount(jobs) == Adedi(jobs)
  {
    if jobs != [] {
      CountersShareAdedi(jobs[1..]);
    }
  }

  /** A completion put in front moves its own type's counter by its `isAdedi` and no other. */
  lemma PrependMovesOwnCounter(r: JobCompletionReport, jobs: seq<JobCompletionReport>)
    ensures ArizaCount([r] + jobs) == ArizaCount(jobs) + (if r.isTipi == Ariza then r.isAdedi else 0)
    ensures TesisCount([r] + jobs) == TesisCount(jobs) + (if r.isTipi == Tesis then r.isAdedi else 0)
  {
    assert ([r] + jobs)[1..] == jobs;
  }

  // ---- submitting ----

  /** The completion `handleSubmit` builds: one job of the chosen type, sent. */
  function NewCompletion(id: string, hizmetNo: string, isTipi: JobType, ekipKodu: string, timestamp: string)
    : JobCompletionReport
  {
    JobCompletionReport(id, hizmetNo, isTipi, 1, ekipKodu, timestamp, Sent)
  }

  /** `JSON.stringify(report)` as the spreadsheet script reads it back. */
  function CompletionPayload(r: JobCompletionReport): Backend.Payload {
    Backend.Payload(
      map["id" := r.id, "hizmetNo" := r.hizmetNo, "isTipi" := r.isTipi.Text(),
          "isAdedi" := IntText(r.isAdedi), "ekipKodu" := r.ekipKodu,
          "timestamp" := r.timestamp, "status" := r.status.Text(),
          "reportType" := "job_completion"],
      None)
  }

  /** What a submit did: refused with an alert, or recorded a completion. */
  datatype Submission = Alerted | Added(report: JobCompletionReport)

  class Form {
    var hizmetNo: string
    var isTipi: JobType
    var isSubmitting: bool

    /** The form's initial state: no service number, ARIZA, not submitting. */
    constructor()
      ensures hizmetNo == "" && isTipi == Ariza && !isSubmitting
    {
      hizmetNo := "";
      isTipi := Ariza;
      isSubmitting := false;
    }

    /** Typing in the service number field. */
    method SetHizmetNo(text: string)
      modifies this
      ensures hizmetNo == text && isTipi == old(isTipi) && isSubmitting == old(isSubmitting)
    {
      hizmetNo := text;
    }

    /** Choosing ARIZA or TESİS. */
    method SetIsTipi(t: JobType)
      modifies this
      ensures isTipi == t && hizmetNo == old(hizmetNo) && isSubmitting == old(isSubmitting)
    {
      isTipi := t;
    }

    /**
     * `handleSubmit`: an empty service number is refused and changes nothing.
     * Otherwise the new completion is recorded, and also posted when a sheet
     * URL is set; the outcome of the post is not looked at. The service number
     * is then cleared and the job type kept.
     */
    method HandleSubmit(ekipKodu: string, sheetUrl: string, id: string, timestamp: string)
      returns (outcome: Submission, request: Option<Backend.Payload>)
      modifies this
      ensures old(hizmetNo) == "" ==>
        outcome == Alerted && request == None &&
        hizmetNo == old(hizmetNo) && isTipi == old(isTipi) && isSubmitting == old(isSubmitting)
      ensures old(hizmetNo) != "" ==>
        outcome == Added(NewCompletion(id, old(hizmetNo), old(isTipi), ekipKodu, timestamp)) &&
        request == (if sheetUrl != "" then Some(CompletionPayload(outcome.report)) else None) &&
        hizmetNo == "" && isTipi == old(isTipi) && !isSubmitting
    {
      if hizmetNo == "" {
        return Alerted, None;
      }
      isSubmitting := true;
      var report := NewCompletion(id, hizmetNo, isTipi, ekipKodu, timestamp);
      request := if sheetUrl != "" then Some(CompletionPayload(report)) else None;
      outcome := Added(report);
      isSubmitting := false;
      hizmetNo := "";
    }
  }

  // ---- what a submitted completion does elsewhere ----

  /**
   * Once the app puts a new completion in front of its list, the chosen
   * type's counter is one higher and the other counter is as it was.
   */
  lemma SubmittedCompletionCountsOne(s: App.AppState, id: string, hizmetNo: string, t: JobType,
                                     ekipKodu: string, timestamp: string)
    ensures var after := App.AddJobCompletion(s, NewCompletion(id, hizmetNo, t, ekipKodu, timestamp));
            t == Ariza ==>
              ArizaCount(after.jobCompletions) == ArizaCount(s.jobCompletions) + 1 &&
              TesisCount(after.jobCompletions) == TesisCount(s.jobCompletions)
    ensures var after := App.AddJobCompletion(s, NewCompletion(id, hizmetNo, t, ekipKodu, timestamp));
            t == Tesis ==>
              TesisCount(after.jobCompletions) == TesisCount(s.jobCompletions) + 1 &&
              ArizaCount(after.jobCompletions) == ArizaCount(s.jobCompletions)
  {
    var r := NewCompletion(id, hizmetNo, t, ekipKodu, timestamp);
    PrependMovesOwnCounter(r, s.jobCompletions);
  }

  /** The script reads a posted completion as a job completion worth its `isAdedi`. */
  lemma CompletionPayloadReads(r: JobCompletionReport)
    ensures Backend.ReportType(CompletionPayload(r)) == "job_completion"
    ensures Backend.KindOf(Backend.ReportType(CompletionPayload(r))) == Backend.JobCompletion
    ensures Backend.Cell(CompletionPayload(r), "isAdedi") == IntText(r.isAdedi)
    ensures Backend.OrDash(CompletionPayload(r), "ekipKodu") == if r.ekipKodu == "" then "-" else r.ekipKodu
  {
    var p := CompletionPayload(r);
    assert "reportType" in p.fields && p.fields["reportType"] == "job_completion";
    assert Backend.KindOf("job_completion") == Backend.JobCompletion;
  }

  /**
   * The posted completion lands in the job completion sheet as the row
   * timestamp, team, service number, job type and "1".
   */
  lemma PostedCompletionRow(r: JobCompletionReport, timestamp: string, photo: string)
    requires r.isAdedi == 1
    ensures var p := CompletionPayload(r);
            && Backend.KindOf(Backend.ReportType(p)) == Backend.JobCompletion
            && Backend.SheetName(Backend.KindOf(Backend.ReportType(p))) == ManagerDashboard.JobsSheet
            && Backend.SchemaRow(Backend.JobCompletion, p, timestamp, photo)
               == [timestamp, if r.ekipKodu == "" then "-" else r.ekipKodu, r.hizmetNo, r.isTipi.Text(), "1"]
  {
    var p := CompletionPayload(r);
    CompletionPayloadReads(r);
    assert IntText(1) == "1";
    Backend.JobCompletionRowIsSchemaRow(p, timestamp, photo);
  }

  /**
   * Posting a completion the form built raises the manager's job total by
   * exactly one.
   */
  lemma PostedCompletionAddsOneJob(sheets: map<string, seq<seq<string>>>, r: JobCompletionReport,
                                   timestamp: string, drive: Backend.Drive,
                                   before: seq<ManagerDashboard.Sheet>, after: seq<ManagerDashboard.Sheet>)
    requires r.isAdedi == 1
    requires Backend.Aligned(sheets)
    requires ManagerDashboard.Lists(before, Backend.View(sheets))
    requires ManagerDashboard.Lists(after, Backend.View(Backend.Posted(sheets, CompletionPayload(r), timestamp, drive)))
    ensures ManagerDashboard.TotalJobs(Some(after)) == ManagerDashboard.TotalJobs(Some(before)) + 1
  {
    CompletionPayloadReads(r);
    ManagerDashboard.PostAddsJobs(sheets, CompletionPayload(r), timestamp, drive, before, after);
    NumberOrZeroReadsIntText(1);
  }
}
