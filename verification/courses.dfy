/**
  The course-option loader of the quiz creation form (`fetchCourses` in
  src/components/Create.jsx): on mount the form reads a singleton
  configuration document and, if it exists, replaces its course options with
  the document's `courses` list. The remote read is an input here: its three
  possible results are the cases of `ConfigFetch`.
 */
module CourseOptions {
  import opened Optional

  /** Result of reading the configuration document. */
  datatype ConfigFetch =
    | FetchThrew                                  // the read raised an error
    | NoSuchDocument                              // the document does not exist
    | Document(courses: Option<seq<string>>)      // the document, with its `courses` field if set

  /** The option list before the configuration read completes. */
  const InitialOptions: seq<string> := []

  /** The option list after the configuration read: the document's `courses`
      in order and unchanged (no courses field reads as the empty list); a
      missing document or a failed read leaves `current` untouched. */
  function LoadCourses(current: seq<string>, fetch: ConfigFetch): (options: seq<string>)
    ensures fetch.Document? && fetch.courses.Some? ==> options == fetch.courses.value
    ensures fetch.Document? && fetch.courses.None? ==> options == []
    ensures !fetch.Document? ==> options == current
  {
    match fetch
    case Document(courses) => ValueOr(courses, [])
    case _ => current
  }

  /** The options the form offers once its mount-time read has completed. */
  function OptionsAfterMount(fetch: ConfigFetch): (options: seq<string>)
    ensures fetch.Document? && fetch.courses.Some? ==> options == fetch.courses.value
    ensures !(fetch.Document? && fetch.courses.Some?) ==> options == []
  {
    LoadCourses(InitialOptions, fetch)
  }

  /** The option values the course selector renders: an empty-valued
      placeholder ("Select Course") followed by one option per course. */
  function SelectorValues(options: seq<string>): (values: seq<string>)
    ensures |values| == |options| + 1
    ensures values[0] == ""
    ensures forall k :: 0 <= k < |options| ==> values[k + 1] == options[k]
  {
    [""] + options
  }

  /** The courses rendered after the placeholder are exactly the fetched
      list, in the same order (so no entry is added, dropped or repeated). */
  lemma RenderedCoursesAreFetched(fetched: seq<string>)
    ensures SelectorValues(OptionsAfterMount(Document(Some(fetched))))[1..] == fetched
  {
    var values := SelectorValues(OptionsAfterMount(Document(Some(fetched))));
    assert values[1..] == fetched;
  }

  /** Picking a non-placeholder entry of the selector yields a course of the
      option list, and every course of the list can be picked this way. */
  lemma SelectedCourseIsOption(options: seq<string>, course: string)
    ensures (course in SelectorValues(options) && course != "") <==> (course in options && course != "")
  {
    var values := SelectorValues(options);
    if course in values && course != "" {
      var k :| 0 <= k < |values| && values[k] == course;
      assert k > 0;
      assert options[k - 1] == course;
    }
    if course in options {
      var k :| 0 <= k < |options| && options[k] == course;
      assert values[k + 1] == course;
    }
  }
}
