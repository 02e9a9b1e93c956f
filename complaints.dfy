/**
 * The complaint collection and the pure list transforms the application
 * applies to it: prepend on creation, and `prev.map` patches that change
 * the entries whose id matches. Ids are minted by the caller from the clock
 * and need not be unique, so every patch speaks of all matching entries.
 */
module Complaints {
  import opened Js

  datatype ComplaintStatus = Pending | Resolved

  /** An incident report. */
  datatype Complaint = Complaint(
    id: string,
    content: string,
    timestamp: int,
    status: ComplaintStatus,
    category: string,
    isAudio: bool,
    transcription: Option<string>,
    aiAnalysis: Option<string>)

  /** The `Partial<Complaint>` a form hands to `addComplaint`. */
  datatype Draft = Draft(content: Option<string>, isAudio: Option<bool>, transcription: Option<string>)

  /** The category shown until classification finishes. */
  const Placeholder := "Processing..."

  /**
   * The record `addComplaint` builds: content defaults to "", `isAudio` is
   * `!!c.isAudio`, status PENDING, placeholder category, no analysis yet.
   */
  function NewComplaint(id: string, timestamp: int, draft: Draft): (c: Complaint)
    ensures c.id == id && c.timestamp == timestamp
    ensures c.content == OrElse(draft.content, "")
    ensures c.isAudio <==> draft.isAudio == Some(true)
    ensures c.status == Pending && c.category == Placeholder
    ensures c.transcription == draft.transcription && c.aiAnalysis.None?
  {
    Complaint(id, OrElse(draft.content, ""), timestamp, Pending, Placeholder,
              draft.isAudio.GetOr(false), draft.transcription, None)
  }

  /** `[newComplaint, ...prev]`. */
  function Prepend(list: seq<Complaint>, c: Complaint): (r: seq<Complaint>)
    ensures |r| == |list| + 1 && r[0] == c && r[1..] == list
  {
    [c] + list
  }

  /** `prev.map(comp => comp.id === id ? { ...comp, category } : comp)`. */
  function PatchCategory(list: seq<Complaint>, id: string, category: string): (r: seq<Complaint>)
    ensures |r| == |list|
    ensures forall i :: 0 <= i < |list| && list[i].id == id ==> r[i] == list[i].(category := category)
    ensures forall i :: 0 <= i < |list| && list[i].id != id ==> r[i] == list[i]
  {
    seq(|list|, i requires 0 <= i < |list| =>
      if list[i].id == id then list[i].(category := category) else list[i])
  }

  /** The flip `toggleResolution` applies. */
  function Flip(status: ComplaintStatus): (flipped: ComplaintStatus)
    ensures flipped != status
  {
    if status == Resolved then Pending else Resolved
  }

  /** `toggleResolution`: flip the status of every entry whose id matches. */
  function ToggleResolution(list: seq<Complaint>, id: string): (r: seq<Complaint>)
    ensures |r| == |list|
    ensures forall i :: 0 <= i < |list| && list[i].id == id ==> r[i] == list[i].(status := Flip(list[i].status))
    ensures forall i :: 0 <= i < |list| && list[i].id != id ==> r[i] == list[i]
  {
    seq(|list|, i requires 0 <= i < |list| =>
      if list[i].id == id then list[i].(status := Flip(list[i].status)) else list[i])
  }

  /** `updateAnalysis`'s patch: set `aiAnalysis` on every entry whose id matches. */
  function SetAnalysis(list: seq<Complaint>, id: string, analysis: string): (r: seq<Complaint>)
    ensures |r| == |list|
    ensures forall i :: 0 <= i < |list| && list[i].id == id ==> r[i] == list[i].(aiAnalysis := Some(analysis))
    ensures forall i :: 0 <= i < |list| && list[i].id != id ==> r[i] == list[i]
  {
    seq(|list|, i requires 0 <= i < |list| =>
      if list[i].id == id then list[i].(aiAnalysis := Some(analysis)) else list[i])
  }

  /** The ids present in the list. */
  function Ids(list: seq<Complaint>): (ids: set<string>)
    ensures forall i :: 0 <= i < |list| ==> list[i].id in ids
    ensures forall id :: id in ids ==> exists i :: 0 <= i < |list| && list[i].id == id
  {
    set i | 0 <= i < |list| :: list[i].id
  }

  /**
   * A new complaint sits at index 0 with status PENDING and the placeholder
   * category; the old entries follow unchanged and in order.
   */
  lemma AddPlacesNewFirst(list: seq<Complaint>, id: string, timestamp: int, draft: Draft)
    ensures var r := Prepend(list, NewComplaint(id, timestamp, draft));
            && r[0].status == Pending && r[0].category == Placeholder && r[0].id == id
            && (forall i :: 0 <= i < |list| ==> r[i + 1] == list[i])
  {
  }

  /**
   * The categorisation patch changes only `category`, and only on entries
   * whose id matches: ids, contents, statuses, flags and analyses keep their
   * places.
   */
  lemma PatchCategoryOnlyCategory(list: seq<Complaint>, id: string, category: string)
    ensures var r := PatchCategory(list, id, category);
            forall i :: 0 <= i < |list| ==>
              r[i].(category := list[i].category) == list[i] &&
              (r[i].category != list[i].category ==> list[i].id == id)
  {
  }

  /** Toggling the same id twice gives the original list back. */
  lemma ToggleTwice(list: seq<Complaint>, id: string)
    ensures ToggleResolution(ToggleResolution(list, id), id) == list
  {
    var once := ToggleResolution(list, id);
    var twice := ToggleResolution(once, id);
    forall i | 0 <= i < |list| ensures twice[i] == list[i] {
      if list[i].id == id {
        assert Flip(Flip(list[i].status)) == list[i].status;
      }
    }
  }

  /** Toggling an id no entry has leaves the list as it was. */
  lemma ToggleAbsent(list: seq<Complaint>, id: string)
    requires id !in Ids(list)
    ensures ToggleResolution(list, id) == list
  {
  }

  /** Setting the analysis never touches category or status, and repeating it changes nothing. */
  lemma SetAnalysisIdempotent(list: seq<Complaint>, id: string, analysis: string)
    ensures SetAnalysis(SetAnalysis(list, id, analysis), id, analysis) == SetAnalysis(list, id, analysis)
    ensures forall i :: 0 <= i < |list| ==>
              SetAnalysis(list, id, analysis)[i].category == list[i].category &&
              SetAnalysis(list, id, analysis)[i].status == list[i].status
  {
  }

  /** The dashboard's filter selection. */
  datatype StatusFilter = All | Only(status: ComplaintStatus)

  /** Whether a complaint passes the filter callback at App.tsx. */
  predicate Matches(filter: StatusFilter, c: Complaint) {
    filter.All? || c.status == filter.status
  }

  /** `complaints.filter(c => filter === 'ALL' || c.status === filter)`. */
  function FilterComplaints(list: seq<Complaint>, filter: StatusFilter): (r: seq<Complaint>)
    ensures |r| <= |list|
    ensures forall i :: 0 <= i < |r| ==> Matches(filter, r[i])
  {
    if list == [] then []
    else
      var rest := FilterComplaints(list[1..], filter);
      if Matches(filter, list[0]) then [list[0]] + rest else rest
  }

  /** The filtered list holds exactly the stored complaints that pass the filter. */
  lemma {:induction false} FilterMembers(list: seq<Complaint>, filter: StatusFilter)
    ensures forall c :: c in FilterComplaints(list, filter) <==> c in list && Matches(filter, c)
  {
    if list != [] {
      FilterMembers(list[1..], filter);
      assert list == [list[0]] + list[1..];
    }
  }

  /** Filtering distributes over concatenation, so relative order is kept. */
  lemma {:induction false} FilterAppend(a: seq<Complaint>, b: seq<Complaint>, filter: StatusFilter)
    ensures FilterComplaints(a + b, filter) == FilterComplaints(a, filter) + FilterComplaints(b, filter)
  {
    if a == [] {
      assert a + b == b;
    } else {
      var rest := a[1..];
      assert (a + b)[0] == a[0] && (a + b)[1..] == rest + b;
      FilterAppend(rest, b, filter);
      var kept := if Matches(filter, a[0]) then [a[0]] else [];
      assert FilterComplaints(a + b, filter) == kept + FilterComplaints(rest + b, filter);
      assert FilterComplaints(a, filter) == kept + FilterComplaints(rest, filter);
    }
  }

  /** 'ALL' shows the whole list, in order. */
  lemma {:induction false} FilterAllIsIdentity(list: seq<Complaint>)
    ensures FilterComplaints(list, All) == list
  {
    if list != [] {
      FilterAllIsIdentity(list[1..]);
    }
  }

  /** `t` is `s` with some entries left out, the rest in their order. */
  ghost predicate IsSubsequence(t: seq<Complaint>, s: seq<Complaint>)
    decreases |s|
  {
    if t == [] then true
    else if s == [] then false
    else if t[0] == s[0] then IsSubsequence(t[1..], s[1..])
    else IsSubsequence(t, s[1..])
  }

  /**
   * A status filter keeps exactly the entries with that status, as a
   * subsequence of the list; the two status views together have every entry.
   */
  lemma {:induction false} FilterByStatus(list: seq<Complaint>, status: ComplaintStatus)
    ensures IsSubsequence(FilterComplaints(list, Only(status)), list)
    ensures forall c :: c in FilterComplaints(list, Only(status)) <==> c in list && c.status == status
    ensures |FilterComplaints(list, Only(Pending))| + |FilterComplaints(list, Only(Resolved))| == |list|
  {
    FilterMembers(list, Only(status));
    if list != [] {
      FilterByStatus(list[1..], status);
    }
  }

  /**
   * Completions keyed by id commute: a category patch, an analysis patch and
   * a status toggle give the same list in either order, whatever the ids.
   */
  lemma CompletionsCommute(list: seq<Complaint>, a: string, category: string, b: string, analysis: string)
    ensures PatchCategory(SetAnalysis(list, b, analysis), a, category) ==
            SetAnalysis(PatchCategory(list, a, category), b, analysis)
    ensures ToggleResolution(PatchCategory(list, a, category), b) ==
            PatchCategory(ToggleResolution(list, b), a, category)
    ensures ToggleResolution(SetAnalysis(list, a, analysis), b) ==
            SetAnalysis(ToggleResolution(list, b), a, analysis)
  {
  }

  /**
   * Filing "Test incident" on an empty list and then classifying it as
   * "Verbal" leaves one pending text complaint whose category is "Verbal".
   */
  lemma SubmitThenCategorize(id: string, timestamp: int)
    ensures PatchCategory(Prepend([], NewComplaint(id, timestamp, Draft(Some("Test incident"), Some(false), None))),
                          id, "Verbal")
            == [Complaint(id, "Test incident", timestamp, Pending, "Verbal", false, None, None)]
  {
  }
}
