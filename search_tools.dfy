/**
 * The tool registry and the two retrieval tools the model may call
 * (backend/search_tools.py): the content-search tool with its numbered
 * citations, the course-outline tool, and the ToolManager that registers
 * tools by name, lists their definitions, dispatches calls and collects the
 * citations of the last search.
 *
 * The vector store is not part of this model: its lookups arrive as the
 * functions of a `Store` value supplied by the caller.
 */
module SearchTools {

  import opened Wrappers
  import opened Text

  // ---------------------------------------------------------------------------
  // Tool calls as the model sends them
  // ---------------------------------------------------------------------------

  /** A JSON scalar in a tool call's input object. */
  datatype Value = Str(s: string) | Int(i: int) | Null

  /** A tool call's keyword arguments: parameter name to value. */
  type Args = map<string, Value>

  /** What calling a tool does: it returns text, or it raises an exception with a message. */
  datatype ToolOutcome = Returned(text: string) | Raised(message: string)

  /** Anything that runs a tool by name, as `tool_manager.execute_tool` does. */
  type ToolExecutor = (string, Args) -> ToolOutcome

  // ---------------------------------------------------------------------------
  // Tool definitions (the schema sent to the model)
  // ---------------------------------------------------------------------------

  datatype Property = Property(name: string, kind: string, description: string)

  datatype InputSchema = InputSchema(kind: string, properties: seq<Property>, required: seq<string>)

  /** A tool definition; `name` is None when the definition has no "name" key. */
  datatype ToolDefinition = ToolDefinition(name: Option<string>, description: string, inputSchema: InputSchema)

  /** An object schema whose properties have distinct names and whose required names are all properties. */
  ghost predicate WellFormedSchema(s: InputSchema) {
    && s.kind == "object"
    && (forall i, j :: 0 <= i < j < |s.properties| ==> s.properties[i].name != s.properties[j].name)
    && (forall k :: 0 <= k < |s.required| ==>
          exists i :: 0 <= i < |s.properties| && s.properties[i].name == s.required[k])
  }

  const SearchToolName := "search_course_content"
  const OutlineToolName := "get_course_outline"

  const CourseNameDescription := "Course title (partial matches work, e.g. 'MCP', 'Introduction')"

  // ---------------------------------------------------------------------------
  // The vector store, as seen by the tools
  // ---------------------------------------------------------------------------

  /** The metadata of one hit; a field is None when its key is absent. */
  datatype Metadata = Metadata(courseTitle: Option<string>, lessonNumber: Option<int>)

  /** A search result: parallel documents, metadata and distances, and an optional error. */
  datatype SearchResults = SearchResults(
    documents: seq<string>,
    metadata: seq<Metadata>,
    distances: seq<real>,
    error: Option<string>)

  /** One lesson of a course's stored lesson list. */
  datatype Lesson = Lesson(lessonNumber: Option<int>, lessonTitle: Option<string>, lessonLink: Option<string>)

  /** The stored lesson list after JSON decoding, or the decoding failure. */
  datatype LessonList = Parsed(lessons: seq<Lesson>) | Unparseable(message: string)

  /**
   * A course-catalog entry. A missing "lessons_json" key decodes as the
   * default "[]", that is `Parsed([])`.
   */
  datatype CourseMetadata = CourseMetadata(
    title: Option<string>,
    instructor: Option<string>,
    courseLink: Option<string>,
    lessons: LessonList)

  /** The catalog lookup: the "metadatas" list (empty when absent), or the exception it raised. */
  datatype CatalogReply = Found(metadatas: seq<CourseMetadata>) | CatalogFailed(message: string)

  /** The vector-store operations the tools call. */
  datatype Store = Store(
    search: (string, Option<string>, Option<int>) -> SearchResults,
    resolveCourseName: string -> Option<string>,
    catalogGet: string -> CatalogReply,
    courseLink: string -> Option<string>,
    lessonLink: (string, int) -> Option<string>,
    lessonTitle: (string, int) -> Option<string>,
    relevanceScores: SearchResults -> seq<real>)

  /** A citation record for one search hit. */
  datatype SourceObject = SourceObject(
    courseTitle: string,
    lessonNumber: Option<int>,
    lessonTitle: Option<string>,
    contentSnippet: string,
    courseLink: Option<string>,
    lessonLink: Option<string>,
    relevanceScore: real,
    citationId: nat)

  // ---------------------------------------------------------------------------
  // Content search: the reference definitions of its text and its citations
  // ---------------------------------------------------------------------------

  const SnippetLength := 150
  const Ellipsis := "..."
  const DefaultRelevance := 0.5
  const UnknownCourse := "unknown"

  /** `bool(lesson_number)` for an `Optional[int]`: None and 0 are false. */
  predicate LessonTruthy(n: Option<int>) {
    n.Some? && n.value != 0
  }

  /** The reply when a search finds nothing: the filters that were truthy, then a full stop. */
  function NoContentMessage(courseName: Option<string>, lessonNumber: Option<int>): (m: string)
    ensures |m| >= 26 && m[..25] == "No relevant content found" && m[|m| - 1] == '.'
    ensures m == "No relevant content found." <==> !Truthy(courseName) && !LessonTruthy(lessonNumber)
    ensures m[25..|m| - 1] == FilterInfo(courseName, lessonNumber)
  {
    var info := FilterInfo(courseName, lessonNumber);
    assert ("No relevant content found" + info + ".")[..25] == "No relevant content found";
    assert info != "" ==> |"No relevant content found" + info + "."| > 26;
    assert ("No relevant content found" + info + ".")[25..|info| + 25] == info;
    "No relevant content found" + info + "."
  }

  /** The truthy filters of a search, as the empty-result message names them: the course first, then the lesson. */
  function FilterInfo(courseName: Option<string>, lessonNumber: Option<int>): (info: string)
    ensures info == "" <==> !Truthy(courseName) && !LessonTruthy(lessonNumber)
    ensures Truthy(courseName) ==>
              var course := " in course '" + courseName.value + "'";
              |info| >= |course| && info[..|course|] == course
    ensures !Truthy(courseName) && LessonTruthy(lessonNumber) ==>
              info == " in lesson " + IntToString(lessonNumber.value)
    ensures Truthy(courseName) && !LessonTruthy(lessonNumber) ==>
              info == " in course '" + courseName.value + "'"
    ensures LessonTruthy(lessonNumber) ==>
              var lesson := " in lesson " + IntToString(lessonNumber.value);
              |info| >= |lesson| && info[|info| - |lesson|..] == lesson
    ensures Truthy(courseName) && LessonTruthy(lessonNumber) ==>
              info == " in course '" + courseName.value + "'" + " in lesson " + IntToString(lessonNumber.value)
  {
    var course := if Truthy(courseName) then " in course '" + courseName.value + "'" else "";
    var lesson := if LessonTruthy(lessonNumber) then " in lesson " + IntToString(lessonNumber.value) else "";
    assert (course + lesson)[..|course|] == course;
    assert (course + lesson)[|course + lesson| - |lesson|..] == lesson;
    course + lesson
  }

  /** The hits are the pairs of zip(documents, metadata). */
  function HitCount(results: SearchResults): nat {
    if |results.documents| <= |results.metadata| then |results.documents| else |results.metadata|
  }

  function CourseTitleOf(meta: Metadata): string {
    if meta.courseTitle.Some? then meta.courseTitle.value else UnknownCourse
  }

  /** "[title]" or, when the hit has a lesson number (0 included), "[title - Lesson n]". */
  function Header(meta: Metadata): string {
    "[" + CourseTitleOf(meta)
    + (if meta.lessonNumber.Some? then " - Lesson " + IntToString(meta.lessonNumber.value) else "")
    + "]"
  }

  /** A header is the course title in brackets, longer than that only when the hit has a lesson number. */
  lemma HeaderShape(meta: Metadata)
    ensures var h, title := Header(meta), CourseTitleOf(meta);
            && |h| >= |title| + 2 && h[0] == '[' && h[|h| - 1] == ']' && h[1..|title| + 1] == title
            && (meta.lessonNumber.None? <==> |h| == |title| + 2)
            && (meta.lessonNumber.Some? ==> h[|title| + 1..|h| - 1] == " - Lesson " + IntToString(meta.lessonNumber.value))
  {
    var title := CourseTitleOf(meta);
    var lesson := if meta.lessonNumber.Some? then " - Lesson " + IntToString(meta.lessonNumber.value) else "";
    var bracketed := "[" + title;
    var h := bracketed + lesson + "]";
    assert Header(meta) == h;
    assert h[..|bracketed|] == bracketed && bracketed[1..] == title;
    assert h[1..|title| + 1] == bracketed[1..];
    assert h[|bracketed|..|h| - 1] == lesson;
  }

  /** The citation snippet: the whole document when it is short, else its first 150 characters and "...". */
  function Snippet(doc: string): (s: string)
    ensures |s| <= SnippetLength + |Ellipsis|
    ensures |doc| <= SnippetLength ==> s == doc
    ensures |doc| > SnippetLength ==>
              |s| == SnippetLength + |Ellipsis| && s[..SnippetLength] == doc[..SnippetLength] && s[SnippetLength..] == Ellipsis
  {
    if |doc| > SnippetLength then doc[..SnippetLength] + Ellipsis else doc
  }

  /** The text of one hit: its header, a newline, and the full document. */
  function Entry(results: SearchResults, i: nat): string
    requires i < HitCount(results)
  {
    Header(results.metadata[i]) + "\n" + results.documents[i]
  }

  /** A hit's entry holds its header, then exactly one newline, then the whole document. */
  lemma EntryShape(results: SearchResults, i: nat)
    requires i < HitCount(results)
    ensures var e, h, doc := Entry(results, i), Header(results.metadata[i]), results.documents[i];
            && |e| == |h| + 1 + |doc|
            && e[..|h|] == h && e[|h|] == '\n' && e[|h| + 1..] == doc
  {
  }

  function Entries(results: SearchResults): (es: seq<string>)
    ensures |es| == HitCount(results)
  {
    seq(HitCount(results), i requires 0 <= i < HitCount(results) => Entry(results, i))
  }

  /** The tool's text for a non-empty result: the entries separated by blank lines. */
  function FormattedResults(results: SearchResults): string {
    Join(Entries(results), "\n\n")
  }

  /** The i-th relevance score, or 0.5 when there are not that many scores. */
  function ScoreAt(scores: seq<real>, i: nat): real {
    if i < |scores| then scores[i] else DefaultRelevance
  }

  /** The citation record of hit i. Lesson link and title are looked up only for a hit with a lesson number. */
  function SourceFor(store: Store, results: SearchResults, scores: seq<real>, i: nat): SourceObject
    requires i < HitCount(results)
  {
    var meta := results.metadata[i];
    var title := CourseTitleOf(meta);
    SourceObject(
      title,
      meta.lessonNumber,
      if meta.lessonNumber.Some? then store.lessonTitle(title, meta.lessonNumber.value) else None,
      Snippet(results.documents[i]),
      store.courseLink(title),
      if meta.lessonNumber.Some? then store.lessonLink(title, meta.lessonNumber.value) else None,
      ScoreAt(scores, i),
      i + 1)
  }

  /** The citations of a search: one per hit, numbered 1..k in hit order. */
  function Sources(store: Store, results: SearchResults): (r: seq<SourceObject>)
    ensures |r| == HitCount(results)
    ensures forall i :: 0 <= i < |r| ==> r[i].citationId == i + 1
    ensures forall i :: 0 <= i < |r| ==>
              r[i].courseTitle == CourseTitleOf(results.metadata[i])
              && r[i].lessonNumber == results.metadata[i].lessonNumber
              && r[i].contentSnippet == Snippet(results.documents[i])
              && r[i].relevanceScore == ScoreAt(store.relevanceScores(results), i)
  {
    var scores := store.relevanceScores(results);
    seq(HitCount(results), i requires 0 <= i < HitCount(results) => SourceFor(store, results, scores, i))
  }

  /**
   * Every citation carries the course link of its title; the lesson title and
   * lesson link are looked up only for a hit with a lesson number, else None.
   */
  lemma SourcesLinks(store: Store, results: SearchResults, i: nat)
    requires i < HitCount(results)
    ensures var r, meta := Sources(store, results), results.metadata[i];
            var title, n := CourseTitleOf(meta), meta.lessonNumber;
            && r[i].courseLink == store.courseLink(title)
            && r[i].lessonTitle == (if n.Some? then store.lessonTitle(title, n.value) else None)
            && r[i].lessonLink == (if n.Some? then store.lessonLink(title, n.value) else None)
  {
  }

  /** Whether the search result is an error the tool returns verbatim. */
  predicate HasError(results: SearchResults) {
    Truthy(results.error)
  }

  /** The text `CourseSearchTool.execute` returns. */
  function SearchReply(store: Store, query: string, courseName: Option<string>, lessonNumber: Option<int>): (r: string)
    ensures var results := store.search(query, courseName, lessonNumber);
            && (HasError(results) ==> r == results.error.value && r != "")
            && (!HasError(results) && |results.documents| == 0 ==> r == NoContentMessage(courseName, lessonNumber))
            && (!HasError(results) && |results.documents| > 0 ==> r == FormattedResults(results))
  {
    var results := store.search(query, courseName, lessonNumber);
    if HasError(results) then results.error.value
    else if |results.documents| == 0 then NoContentMessage(courseName, lessonNumber)
    else FormattedResults(results)
  }

  /** The retained citations after `CourseSearchTool.execute`: replaced on a formatted result, else kept. */
  function SourcesAfterSearch(store: Store, query: string, courseName: Option<string>, lessonNumber: Option<int>,
                              previous: seq<SourceObject>): (r: seq<SourceObject>)
    ensures var results := store.search(query, courseName, lessonNumber);
            && (HasError(results) || |results.documents| == 0 ==> r == previous)
            && (!HasError(results) && |results.documents| > 0 ==> r == Sources(store, results) && |r| == HitCount(results))
  {
    var results := store.search(query, courseName, lessonNumber);
    if HasError(results) || |results.documents| == 0 then previous else Sources(store, results)
  }

  /** The error string of the store is returned as it is, even when the result also holds no documents. */
  lemma SearchErrorComesFirst(store: Store, query: string, courseName: Option<string>, lessonNumber: Option<int>,
                              previous: seq<SourceObject>)
    requires HasError(store.search(query, courseName, lessonNumber))
    ensures SearchReply(store, query, courseName, lessonNumber) == store.search(query, courseName, lessonNumber).error.value
    ensures SourcesAfterSearch(store, query, courseName, lessonNumber, previous) == previous
  {
  }

  /** A lesson filter of 0 is falsy in the source, so it is left out of the empty-result message. */
  lemma LessonZeroIsNoFilter(courseName: Option<string>)
    ensures NoContentMessage(courseName, Some(0)) == NoContentMessage(courseName, None)
    ensures NoContentMessage(None, None) == "No relevant content found."
  {
    assert FilterInfo(None, None) == "";
  }

  /** Each hit's header and full document stand, in hit order, between blank-line separators. */
  lemma FormattedResultsHoldEachHit(results: SearchResults, i: nat)
    requires i < HitCount(results)
    ensures var es := Entries(results);
            FormattedResults(results)
            == Join(es[..i], "\n\n") + (if i > 0 then "\n\n" else "")
               + (Header(results.metadata[i]) + "\n" + results.documents[i])
               + (if i + 1 < |es| then "\n\n" + Join(es[i + 1..], "\n\n") else "")
  {
    JoinSplit(Entries(results), "\n\n", i);
    assert Entries(results)[i] == Header(results.metadata[i]) + "\n" + results.documents[i];
  }

  // ---------------------------------------------------------------------------
  // Course outline: the reference definitions of its text
  // ---------------------------------------------------------------------------

  const NoLinkAvailable := "No link available"
  const UnknownInstructor := "Unknown"
  const Untitled := "Untitled"
  const OutlineErrorPrefix := "Error retrieving course outline: "

  function OrElse(s: Option<string>, default: string): string {
    if s.Some? then s.value else default
  }

  /** f"{n}" for an optional integer: Python prints None as "None". */
  function OptionalIntText(n: Option<int>): string {
    if n.Some? then IntToString(n.value) else "None"
  }

  /** "Lesson N: Title", followed by " (link)" only when the link is truthy. */
  function LessonLine(lesson: Lesson): string {
    "Lesson " + OptionalIntText(lesson.lessonNumber) + ": " + OrElse(lesson.lessonTitle, Untitled)
    + (if Truthy(lesson.lessonLink) then " (" + lesson.lessonLink.value + ")" else "")
  }

  /** A lesson line is its number and title, followed by the link in parentheses exactly when the link is truthy. */
  lemma LessonLineShape(lesson: Lesson)
    ensures var line := LessonLine(lesson);
            var base := "Lesson " + OptionalIntText(lesson.lessonNumber) + ": " + OrElse(lesson.lessonTitle, Untitled);
            && |line| >= |base| && line[..|base|] == base
            && (Truthy(lesson.lessonLink) <==> |line| > |base|)
            && (Truthy(lesson.lessonLink) ==> line[|base|..] == " (" + lesson.lessonLink.value + ")")
  {
    var base := "Lesson " + OptionalIntText(lesson.lessonNumber) + ": " + OrElse(lesson.lessonTitle, Untitled);
    var link := if Truthy(lesson.lessonLink) then " (" + lesson.lessonLink.value + ")" else "";
    assert LessonLine(lesson) == base + link;
    assert (base + link)[..|base|] == base;
    assert (base + link)[|base|..] == link;
  }

  function LessonLines(lessons: seq<Lesson>): (ls: seq<string>)
    ensures |ls| == |lessons|
  {
    seq(|lessons|, i requires 0 <= i < |lessons| => LessonLine(lessons[i]))
  }

  /** Title, instructor, course link, a blank line and the lessons heading. */
  function OutlineHeader(meta: CourseMetadata, exactTitle: string): (h: seq<string>)
    ensures |h| == 5 && h[3] == "" && h[4] == "**Lessons:**"
    ensures h[0] == "**" + (if meta.title.Some? then meta.title.value else exactTitle) + "**"
    ensures h[1] == "Instructor: " + OrElse(meta.instructor, UnknownInstructor)
    ensures h[2] == "Course Link: " + OrElse(meta.courseLink, NoLinkAvailable)
  {
    [ "**" + OrElse(meta.title, exactTitle) + "**",
      "Instructor: " + OrElse(meta.instructor, UnknownInstructor),
      "Course Link: " + OrElse(meta.courseLink, NoLinkAvailable),
      "",
      "**Lessons:**" ]
  }

  /** The outline's lines: the header, then one line per lesson or a single "No lessons found". */
  function OutlineLines(meta: CourseMetadata, exactTitle: string, lessons: seq<Lesson>): seq<string> {
    OutlineHeader(meta, exactTitle) + (if lessons == [] then ["No lessons found"] else LessonLines(lessons))
  }

  /** The shape of a rendered outline, line by line. */
  lemma OutlineLinesShape(meta: CourseMetadata, exactTitle: string, lessons: seq<Lesson>)
    ensures var ls := OutlineLines(meta, exactTitle, lessons);
            && |ls| == 5 + (if lessons == [] then 1 else |lessons|)
            && ls[0] == "**" + OrElse(meta.title, exactTitle) + "**"
            && ls[1] == "Instructor: " + OrElse(meta.instructor, UnknownInstructor)
            && ls[2] == "Course Link: " + OrElse(meta.courseLink, NoLinkAvailable)
            && ls[3] == ""
            && ls[4] == "**Lessons:**"
            && (lessons == [] ==> ls[5] == "No lessons found")
            && (forall i :: 0 <= i < |lessons| ==> ls[5 + i] == LessonLine(lessons[i]))
  {
  }

  function NoCourseMessage(courseName: string): string {
    "No course found matching '" + courseName + "'"
  }

  function NoMetadataMessage(exactTitle: string): string {
    "No metadata found for course '" + exactTitle + "'"
  }

  /**
   * The text `CourseOutlineTool.execute` returns. Every failure comes back as
   * text: an unresolved name is reported as given, a missing catalog entry by
   * its exact title, and a failing lookup or lesson list with its message.
   */
  function OutlineReply(store: Store, courseName: string): (r: string)
    ensures var exact := store.resolveCourseName(courseName);
            && (!Truthy(exact) ==> r == NoCourseMessage(courseName))
            && (Truthy(exact) && store.catalogGet(exact.value).CatalogFailed? ==>
                  r == OutlineErrorPrefix + store.catalogGet(exact.value).message)
            && (Truthy(exact) && store.catalogGet(exact.value) == Found([]) ==>
                  r == NoMetadataMessage(exact.value))
            && (Truthy(exact) && store.catalogGet(exact.value).Found? && store.catalogGet(exact.value).metadatas != [] ==>
                  var meta := store.catalogGet(exact.value).metadatas[0];
                  match meta.lessons
                  case Unparseable(m) => r == OutlineErrorPrefix + m
                  case Parsed(lessons) => r == Join(OutlineLines(meta, exact.value, lessons), "\n"))
  {
    var exact := store.resolveCourseName(courseName);
    if !Truthy(exact) then NoCourseMessage(courseName)
    else match store.catalogGet(exact.value)
      case CatalogFailed(m) => OutlineErrorPrefix + m
      case Found(metadatas) =>
        if metadatas == [] then NoMetadataMessage(exact.value)
        else match metadatas[0].lessons
          case Unparseable(m) => OutlineErrorPrefix + m
          case Parsed(lessons) => Join(OutlineLines(metadatas[0], exact.value, lessons), "\n")
  }

  // ---------------------------------------------------------------------------
  // Binding keyword arguments to the tools' parameters
  // ---------------------------------------------------------------------------

  datatype Binding<+T> = Bound(value: T) | BindError(message: string)

  datatype SearchArgs = SearchArgs(query: string, courseName: Option<string>, lessonNumber: Option<int>)

  function UnexpectedKeyword(callee: string): string {
    callee + "() got an unexpected keyword argument"
  }

  function MissingArgument(callee: string, parameter: string): string {
    callee + "() missing 1 required positional argument: '" + parameter + "'"
  }

  function UnsupportedValue(callee: string, parameter: string): string {
    callee + "() got a value of an unsupported type for '" + parameter + "'"
  }

  /** An optional string parameter: absent or null is None. */
  function OptionalStr(args: Args, key: string, callee: string): Binding<Option<string>> {
    if key !in args then Bound(None)
    else match args[key]
      case Null => Bound(None)
      case Str(s) => Bound(Some(s))
      case Int(_) => BindError(UnsupportedValue(callee, key))
  }

  /** An optional integer parameter: absent or null is None. */
  function OptionalInt(args: Args, key: string, callee: string): Binding<Option<int>> {
    if key !in args then Bound(None)
    else match args[key]
      case Null => Bound(None)
      case Int(i) => Bound(Some(i))
      case Str(_) => BindError(UnsupportedValue(callee, key))
  }

  const SearchMethod := "CourseSearchTool.execute"
  const OutlineMethod := "CourseOutlineTool.execute"

  /**
   * A call `execute(query, course_name=None, lesson_number=None)` accepts: only
   * its three keywords, a string query, and an optional filter that is absent,
   * null or of its parameter's type.
   */
  predicate SearchCallWellFormed(args: Args) {
    && args.Keys <= {"query", "course_name", "lesson_number"}
    && "query" in args && args["query"].Str?
    && ("course_name" in args ==> !args["course_name"].Int?)
    && ("lesson_number" in args ==> !args["lesson_number"].Str?)
  }

  /** `execute(query, course_name=None, lesson_number=None)` applied to keyword arguments. */
  function BindSearchArgs(args: Args): (b: Binding<SearchArgs>)
    ensures b.Bound? <==> SearchCallWellFormed(args)
    ensures b.Bound? ==>
              && args["query"] == Str(b.value.query)
              && b.value.courseName
                 == (if "course_name" in args && args["course_name"].Str? then Some(args["course_name"].s) else None)
              && b.value.lessonNumber
                 == (if "lesson_number" in args && args["lesson_number"].Int? then Some(args["lesson_number"].i) else None)
  {
    if !(args.Keys <= {"query", "course_name", "lesson_number"}) then BindError(UnexpectedKeyword(SearchMethod))
    else if "query" !in args then BindError(MissingArgument(SearchMethod, "query"))
    else if !args["query"].Str? then BindError(UnsupportedValue(SearchMethod, "query"))
    else match OptionalStr(args, "course_name", SearchMethod)
      case BindError(m) => BindError(m)
      case Bound(courseName) =>
        match OptionalInt(args, "lesson_number", SearchMethod)
        case BindError(m) => BindError(m)
        case Bound(lessonNumber) => Bound(SearchArgs(args["query"].s, courseName, lessonNumber))
  }

  /** `execute(course_name)` applied to keyword arguments. */
  function BindOutlineArgs(args: Args): (b: Binding<string>)
    ensures b.Bound? <==> args.Keys == {"course_name"} && args["course_name"].Str?
    ensures b.Bound? ==> args["course_name"] == Str(b.value)
  {
    if !(args.Keys <= {"course_name"}) then BindError(UnexpectedKeyword(OutlineMethod))
    else if "course_name" !in args then BindError(MissingArgument(OutlineMethod, "course_name"))
    else if !args["course_name"].Str? then BindError(UnsupportedValue(OutlineMethod, "course_name"))
    else Bound(args["course_name"].s)
  }

  // ---------------------------------------------------------------------------
  // The tools
  // ---------------------------------------------------------------------------

  /** Searches course content and keeps the citations of its last formatted result. */
  class CourseSearchTool {

    const store: Store
    var lastSources: seq<SourceObject>

    constructor (store: Store)
      ensures this.store == store && lastSources == []
    {
      this.store := store;
      lastSources := [];
    }

    /** The definition: one required "query" string, optional "course_name" and "lesson_number". */
    function GetToolDefinition(): (d: ToolDefinition)
      ensures d.name == Some(SearchToolName)
      ensures d.inputSchema.required == ["query"]
      ensures WellFormedSchema(d.inputSchema)
      ensures |d.inputSchema.properties| == 3
      ensures d.inputSchema.properties[0].name == "query" && d.inputSchema.properties[0].kind == "string"
      ensures d.inputSchema.properties[1].name == "course_name" && d.inputSchema.properties[1].kind == "string"
      ensures d.inputSchema.properties[2].name == "lesson_number" && d.inputSchema.properties[2].kind == "integer"
    {
      var d := ToolDefinition(
        Some(SearchToolName),
        "Search course materials with smart course name matching and lesson filtering",
        InputSchema(
          "object",
          [ Property("query", "string", "What to search for in the course content"),
            Property("course_name", "string", CourseNameDescription),
            Property("lesson_number", "integer", "Specific lesson number to search within (e.g. 1, 2, 3)") ],
          ["query"]));
      assert d.inputSchema.properties[0].name == "query";
      d
    }

    /**
     * Runs a search. An error string from the store is returned first, then the
     * empty-result message; in both cases the retained citations stay as they were.
     * Otherwise the hits are formatted and their citations replace the old ones.
     */
    method Execute(query: string, courseName: Option<string>, lessonNumber: Option<int>) returns (r: string)
      modifies this
      ensures r == SearchReply(store, query, courseName, lessonNumber)
      ensures lastSources == SourcesAfterSearch(store, query, courseName, lessonNumber, old(lastSources))
      ensures var results := store.search(query, courseName, lessonNumber);
              && (HasError(results) ==> r == results.error.value && lastSources == old(lastSources))
              && (!HasError(results) && |results.documents| == 0 ==>
                    r == NoContentMessage(courseName, lessonNumber) && lastSources == old(lastSources))
              && (!HasError(results) && |results.documents| > 0 ==>
                    r == FormattedResults(results) && lastSources == Sources(store, results))
    {
      var results := store.search(query, courseName, lessonNumber);
      if Truthy(results.error) {
        return results.error.value;
      }
      if |results.documents| == 0 {
        var filterInfo := "";
        if Truthy(courseName) {
          filterInfo := filterInfo + " in course '" + courseName.value + "'";
          assert filterInfo == " in course '" + courseName.value + "'";
        }
        if LessonTruthy(lessonNumber) {
          var before := filterInfo;
          filterInfo := filterInfo + " in lesson " + IntToString(lessonNumber.value);
          assert filterInfo == before + (" in lesson " + IntToString(lessonNumber.value));
        }
        assert filterInfo == FilterInfo(courseName, lessonNumber);
        return "No relevant content found" + filterInfo + ".";
      }
      r := FormatResults(results);
    }

    /** Formats the hits in order and replaces the retained citations with theirs. */
    method FormatResults(results: SearchResults) returns (r: string)
      modifies this
      ensures r == FormattedResults(results)
      ensures lastSources == Sources(store, results)
    {
      var formatted: seq<string> := [];
      var sources: seq<SourceObject> := [];
      var relevanceScores := store.relevanceScores(results);
      var n := HitCount(results);
      var i := 0;
      while i < n
        invariant 0 <= i <= n
        invariant |formatted| == i && |sources| == i
        invariant forall j :: 0 <= j < i ==> formatted[j] == Entry(results, j)
        invariant forall j :: 0 <= j < i ==> sources[j] == SourceFor(store, results, relevanceScores, j)
      {
        var entry, source := FormatHit(results, relevanceScores, i);
        sources := sources + [source];
        formatted := formatted + [entry];
        i := i + 1;
      }
      assert formatted == Entries(results);
      assert sources == Sources(store, results);
      lastSources := sources;
      r := Join(formatted, "\n\n");
    }

    /** The body of the formatting loop for hit i: its text entry and its citation. */
    method FormatHit(results: SearchResults, relevanceScores: seq<real>, i: nat) returns (entry: string, source: SourceObject)
      requires i < HitCount(results)
      ensures entry == Entry(results, i)
      ensures source == SourceFor(store, results, relevanceScores, i)
      ensures source.citationId == i + 1
    {
      var doc, meta := results.documents[i], results.metadata[i];
      var courseTitle := CourseTitleOf(meta);
      var lessonNum := meta.lessonNumber;

      var header := "[" + courseTitle;
      if lessonNum.Some? {
        header := header + " - Lesson " + IntToString(lessonNum.value);
      }
      header := header + "]";
      assert header == Header(meta);

      var contentSnippet := if |doc| > SnippetLength then doc[..SnippetLength] + Ellipsis else doc;

      var courseLink := store.courseLink(courseTitle);
      var lessonLink: Option<string> := None;
      var lessonTitle: Option<string> := None;
      if lessonNum.Some? {
        lessonLink := store.lessonLink(courseTitle, lessonNum.value);
        lessonTitle := store.lessonTitle(courseTitle, lessonNum.value);
      }

      var relevanceScore := if i < |relevanceScores| then relevanceScores[i] else DefaultRelevance;

      source := SourceObject(courseTitle, lessonNum, lessonTitle, contentSnippet,
                             courseLink, lessonLink, relevanceScore, i + 1);
      entry := header + "\n" + doc;
    }
  }

  /** Renders a course's outline; it keeps no state of its own. */
  class CourseOutlineTool {

    const store: Store

    constructor (store: Store)
      ensures this.store == store
    {
      this.store := store;
    }

    /** The definition: one required "course_name" string. */
    function GetToolDefinition(): (d: ToolDefinition)
      ensures d.name == Some(OutlineToolName)
      ensures d.inputSchema.required == ["course_name"]
      ensures WellFormedSchema(d.inputSchema)
      ensures |d.inputSchema.properties| == 1
      ensures d.inputSchema.properties[0].name == "course_name" && d.inputSchema.properties[0].kind == "string"
    {
      var d := ToolDefinition(
        Some(OutlineToolName),
        "Get the complete outline of a course including title, link, and all lessons",
        InputSchema("object", [Property("course_name", "string", CourseNameDescription)], ["course_name"]));
      assert d.inputSchema.properties[0].name == "course_name";
      d
    }

    /**
     * Resolves the name, fetches the catalog entry and renders it; every failure
     * comes back as text. An unresolved name is reported with the name as given.
     */
    method Execute(courseName: string) returns (r: string)
      ensures r == OutlineReply(store, courseName)
    {
      var exactTitle := store.resolveCourseName(courseName);
      if !Truthy(exactTitle) {
        return NoCourseMessage(courseName);
      }
      var title := exactTitle.value;
      var results := store.catalogGet(title);
      if results.CatalogFailed? {
        return OutlineErrorPrefix + results.message;
      }
      if results.metadatas == [] {
        return NoMetadataMessage(title);
      }
      var metadata := results.metadatas[0];
      var courseTitle := OrElse(metadata.title, title);
      var courseLink := OrElse(metadata.courseLink, NoLinkAvailable);
      var instructor := OrElse(metadata.instructor, UnknownInstructor);
      if metadata.lessons.Unparseable? {
        return OutlineErrorPrefix + metadata.lessons.message;
      }
      var lessons := metadata.lessons.lessons;

      var outline := ["**" + courseTitle + "**"];
      outline := outline + ["Instructor: " + instructor];
      outline := outline + ["Course Link: " + courseLink];
      outline := outline + [""];
      outline := outline + ["**Lessons:**"];
      assert outline == OutlineHeader(metadata, title);

      if lessons == [] {
        outline := outline + ["No lessons found"];
      } else {
        var i := 0;
        while i < |lessons|
          invariant 0 <= i <= |lessons|
          invariant outline == OutlineHeader(metadata, title) + LessonLines(lessons[..i])
        {
          var lesson := lessons[i];
          var lessonLine := "Lesson " + OptionalIntText(lesson.lessonNumber) + ": " + OrElse(lesson.lessonTitle, Untitled);
          if Truthy(lesson.lessonLink) {
            lessonLine := lessonLine + " (" + lesson.lessonLink.value + ")";
          }
          assert lessonLine == LessonLine(lesson);
          assert LessonLines(lessons[..i + 1]) == LessonLines(lessons[..i]) + [LessonLine(lesson)];
          outline := outline + [lessonLine];
          i := i + 1;
        }
        assert lessons[..i] == lessons;
      }
      r := Join(outline, "\n");
    }
  }

  // ---------------------------------------------------------------------------
  // The registry
  // ---------------------------------------------------------------------------

  /**
   * A registered tool: one of the two tools above, or another implementation of
   * the tool interface given by its definition and its behaviour.
   */
  datatype Tool =
    | SearchTool(search: CourseSearchTool)
    | OutlineTool(outline: CourseOutlineTool)
    | CustomTool(definition: ToolDefinition, behaviour: Args -> ToolOutcome)

  function Definition(tool: Tool): ToolDefinition {
    match tool
    case SearchTool(t) => t.GetToolDefinition()
    case OutlineTool(t) => t.GetToolDefinition()
    case CustomTool(d, _) => d
  }

  /** The name a tool registers under, read without building its whole definition. */
  function ToolName(tool: Tool): Option<string> {
    match tool
    case SearchTool(_) => Some(SearchToolName)
    case OutlineTool(_) => Some(OutlineToolName)
    case CustomTool(d, _) => d.name
  }

  /** A tool is registered under the name its definition gives. */
  lemma ToolNameIsDefinitionName(tool: Tool)
    ensures ToolName(tool) == Definition(tool).name
  {
  }

  /** What calling a tool returns; a failed argument binding raises a TypeError. */
  function Dispatch(tool: Tool, args: Args): (r: ToolOutcome)
    ensures tool.SearchTool? ==> (r.Raised? <==> !SearchCallWellFormed(args))
    ensures tool.SearchTool? && r.Returned? ==>
              var a := BindSearchArgs(args).value;
              r.text == SearchReply(tool.search.store, a.query, a.courseName, a.lessonNumber)
    ensures tool.OutlineTool? ==> (r.Raised? <==> !(args.Keys == {"course_name"} && args["course_name"].Str?))
    ensures tool.OutlineTool? && r.Returned? ==> r.text == OutlineReply(tool.outline.store, args["course_name"].s)
    ensures tool.CustomTool? ==> r == tool.behaviour(args)
  {
    match tool
    case SearchTool(t) =>
      (match BindSearchArgs(args)
       case BindError(m) => Raised(m)
       case Bound(a) => Returned(SearchReply(t.store, a.query, a.courseName, a.lessonNumber)))
    case OutlineTool(t) =>
      (match BindOutlineArgs(args)
       case BindError(m) => Raised(m)
       case Bound(c) => Returned(OutlineReply(t.store, c)))
    case CustomTool(_, behaviour) => behaviour(args)
  }

  function NotFoundMessage(name: string): string {
    "Tool '" + name + "' not found"
  }

  const MissingNameMessage := "Tool must have a 'name' in its definition"

  datatype Registration = Registered | Rejected(message: string)

  /** The name-to-tool registry. `order` is the insertion order of the dictionary's keys. */
  class ToolManager {

    var tools: map<string, Tool>
    var order: seq<string>

    /** The keys in `order` are distinct and are those of `tools`; each tool is registered under its own name. */
    ghost predicate Valid()
      reads this
    {
      && (forall i, j :: 0 <= i < j < |order| ==> order[i] != order[j])
      && (forall i :: 0 <= i < |order| ==> order[i] in tools)
      && (forall n :: n in tools ==> n in order)
      && (forall n :: n in tools ==> ToolName(tools[n]) == Some(n))
    }

    constructor ()
      ensures Valid() && tools == map[] && order == []
    {
      tools := map[];
      order := [];
    }

    /** The tools that keep citations. */
    function TrackingTools(): set<CourseSearchTool>
      reads this
    {
      set n | n in tools && tools[n].SearchTool? :: tools[n].search
    }

    /**
     * Registers a tool under the name in its definition, replacing an earlier
     * tool of that name in place; a definition without a name is refused.
     */
    method RegisterTool(tool: Tool) returns (r: Registration)
      requires Valid()
      modifies this
      ensures Valid()
      ensures r == (if Truthy(ToolName(tool)) then Registered else Rejected(MissingNameMessage))
      ensures r.Rejected? ==> tools == old(tools) && order == old(order)
      ensures r.Registered? ==>
                var name := ToolName(tool).value;
                && tools == old(tools)[name := tool]
                && order == (if name in old(tools) then old(order) else old(order) + [name])
    {
      var toolName := ToolName(tool);
      if !Truthy(toolName) {
        return Rejected(MissingNameMessage);
      }
      var name := toolName.value;
      if name !in tools {
        order := order + [name];
      }
      tools := tools[name := tool];
      r := Registered;
    }

    /** The definitions of the registered tools, in registration order. */
    function GetToolDefinitions(): (defs: seq<ToolDefinition>)
      reads this
      requires Valid()
      ensures |defs| == |order|
      ensures forall i :: 0 <= i < |defs| ==> defs[i].name == Some(order[i])
      ensures forall i :: 0 <= i < |defs| ==> defs[i] == Definition(tools[order[i]])
    {
      seq(|order|, i requires 0 <= i < |order| && order[i] in tools reads this => Definition(tools[order[i]]))
    }

    /** The registry as a tool executor: what `ExecuteTool` returns for each name and arguments. */
    function Executor(): (exec: ToolExecutor)
      reads this
      ensures forall name, args :: name !in tools ==> exec(name, args) == Returned(NotFoundMessage(name))
      ensures forall name, args :: name in tools ==> exec(name, args) == Dispatch(tools[name], args)
    {
      var registered := tools;
      (name: string, args: Args) => if name in registered then Dispatch(registered[name], args) else Returned(NotFoundMessage(name))
    }

    /**
     * Runs the tool registered under `name`. An unknown name is answered with a
     * message and runs nothing. Only the search tool that ran may change its
     * retained citations.
     */
    method ExecuteTool(name: string, args: Args) returns (r: ToolOutcome)
      requires Valid()
      modifies TrackingTools()
      ensures r == (if name in tools then Dispatch(tools[name], args) else Returned(NotFoundMessage(name)))
      ensures name !in tools ==> r == Returned(NotFoundMessage(name))
      ensures forall t :: t in TrackingTools() && !(name in tools && tools[name] == SearchTool(t)) ==>
                t.lastSources == old(t.lastSources)
      ensures name in tools && tools[name].SearchTool? ==>
                var t := tools[name].search;
                t.lastSources == match BindSearchArgs(args)
                                 case BindError(_) => old(t.lastSources)
                                 case Bound(a) => SourcesAfterSearch(t.store, a.query, a.courseName, a.lessonNumber, old(t.lastSources))
    {
      if name !in tools {
        return Returned(NotFoundMessage(name));
      }
      match tools[name]
      case SearchTool(t) =>
        match BindSearchArgs(args) {
          case BindError(m) =>
            r := Raised(m);
          case Bound(a) =>
            var text := t.Execute(a.query, a.courseName, a.lessonNumber);
            r := Returned(text);
        }
      case OutlineTool(t) =>
        match BindOutlineArgs(args) {
          case BindError(m) =>
            r := Raised(m);
          case Bound(c) =>
            var text := t.Execute(c);
            r := Returned(text);
        }
      case CustomTool(_, behaviour) =>
        r := behaviour(args);
    }

    /** The first non-empty list of retained citations among `names`, or []. */
    function FirstSources(names: seq<string>): (r: seq<SourceObject>)
      reads this, TrackingTools()
      requires forall k :: 0 <= k < |names| ==> names[k] in tools
      ensures r == [] <==>
                forall k :: 0 <= k < |names| && tools[names[k]].SearchTool? ==> tools[names[k]].search.lastSources == []
      ensures r != [] ==>
                exists k :: 0 <= k < |names| && tools[names[k]].SearchTool? && tools[names[k]].search.lastSources == r
                            && forall j :: 0 <= j < k && tools[names[j]].SearchTool? ==> tools[names[j]].search.lastSources == []
    {
      if names == [] then []
      else
        var tool := tools[names[0]];
        if tool.SearchTool? && tool.search.lastSources != [] then tool.search.lastSources
        else
          var rest := FirstSources(names[1..]);
          assert forall k :: 1 <= k < |names| ==> names[k] == names[1..][k - 1];
          rest
    }

    /** The citations of the first tool, in registration order, that retains any; else []. */
    function GetLastSources(): (r: seq<SourceObject>)
      reads this, TrackingTools()
      requires Valid()
      ensures r == [] <==> forall t :: t in TrackingTools() ==> t.lastSources == []
      ensures r != [] ==>
                exists k :: 0 <= k < |order| && tools[order[k]].SearchTool? && tools[order[k]].search.lastSources == r
                            && forall j :: 0 <= j < k && tools[order[j]].SearchTool? ==> tools[order[j]].search.lastSources == []
    {
      var r := FirstSources(order);
      assert forall t :: t in TrackingTools() && r == [] ==> t.lastSources == [] by {
        forall t | t in TrackingTools() && r == []
          ensures t.lastSources == []
        {
          var n :| n in tools && tools[n].SearchTool? && tools[n].search == t;
          var k :| 0 <= k < |order| && order[k] == n;
        }
      }
      r
    }

    /** Empties the retained citations of every tool that keeps them, and changes nothing else. */
    method ResetSources()
      requires Valid()
      modifies TrackingTools()
      ensures forall t :: t in TrackingTools() ==> t.lastSources == []
      ensures GetLastSources() == []
    {
      var i := 0;
      while i < |order|
        invariant 0 <= i <= |order|
        invariant forall j :: 0 <= j < i && tools[order[j]].SearchTool? ==> tools[order[j]].search.lastSources == []
      {
        var tool := tools[order[i]];
        if tool.SearchTool? {
          tool.search.lastSources := [];
        }
        i := i + 1;
      }
      forall t | t in TrackingTools()
        ensures t.lastSources == []
      {
        var n :| n in tools && tools[n].SearchTool? && tools[n].search == t;
        var k :| 0 <= k < |order| && order[k] == n;
      }
    }
  }
}
