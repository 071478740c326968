/** The sample-forms page, src/app/sample-forms/page.tsx: one form record
    holding every kind of input, updated one field at a time by the generic
    input handler, the date-range handler and the rich-text handler.

    The record is a map from field name to value, because the generic handler
    writes under whatever `name` the event carries. */
module SampleForms {
  import opened Wrappers
  import opened DateRangePicker

  /** A selected file, known here only by its name. */
  datatype FileRef = FileRef(name: string)

  /** The values a field of the record can hold. */
  datatype FieldValue =
    | Text(text: string)
    | Flag(flag: bool)
    | Number(number: int)
    | FileValue(file: Option<FileRef>)
    | Range(range: DateRange)

  /** What a change event offers: the target's `name`, `value` and `type`,
      its `checked` state and its `files` list (absent except on file
      inputs). */
  datatype InputEvent = InputEvent(name: string, value: string, kind: string, checked: bool,
                                   files: Option<seq<FileRef>>)

  /** The record the page starts with: empty strings and cleared check
      boxes, a rating of 5, a range of 50, black as the colour, no file and an
      empty date range. */
  const InitialData: map<string, FieldValue> := map[
    "firstName" := Text(""), "lastName" := Text(""), "email" := Text(""),
    "password" := Text(""), "phone" := Text(""), "website" := Text(""),
    "country" := Text(""), "gender" := Text(""), "subscription" := Text(""),
    "newsletter" := Flag(false), "terms" := Flag(false), "notifications" := Flag(false),
    "birthDate" := Text(""), "message" := Text(""), "rating" := Number(5),
    "fileUpload" := FileValue(None), "color" := Text("#000000"), "range" := Number(50),
    "specificDate" := Text(""), "dateTime" := Text(""), "time" := Text(""),
    "month" := Text(""), "week" := Text(""),
    "dateRange" := Range(DateRange("", "")), "richTextContent" := Text("")]

  /** The `type` of the element the page renders for each field wired to
      the generic handler (a `select` reports "select-one", a `textarea`
      reports "textarea"). The date range and the rich text have handlers of
      their own. */
  const RenderedType: map<string, string> := map[
    "firstName" := "text", "lastName" := "text", "email" := "email",
    "password" := "password", "phone" := "tel", "website" := "url",
    "country" := "select-one", "gender" := "radio", "subscription" := "radio",
    "newsletter" := "checkbox", "terms" := "checkbox", "notifications" := "checkbox",
    "birthDate" := "date", "rating" := "range", "color" := "color", "range" := "range",
    "fileUpload" := "file", "message" := "textarea", "specificDate" := "date",
    "dateTime" := "datetime-local", "time" := "time", "month" := "month", "week" := "week"]

  /** `{ ...prev, [name]: value }`: the named field takes the value, added if
      it was not there, and every other field keeps its own. */
  function Update(data: map<string, FieldValue>, name: string, v: FieldValue): (r: map<string, FieldValue>)
    ensures r.Keys == data.Keys + {name}
    ensures name in r && r[name] == v
    ensures forall k :: k in data && k != name ==> r[k] == data[k]
  {
    data[name := v]
  }

  /** The value the generic handler stores for an event: a check box stores
      its checked state, a file input its first file (none when no file is
      chosen), and every other input its raw string value. */
  function ChangedValue(e: InputEvent): FieldValue
  {
    if e.kind == "checkbox" then Flag(e.checked)
    else if e.kind == "file" then
      FileValue(if e.files.Some? && |e.files.value| > 0 then Some(e.files.value[0]) else None)
    else Text(e.value)
  }

  /** The kinds of value, without their contents. */
  datatype Shape = TextShape | FlagShape | NumberShape | FileShape | RangeShape

  function ShapeOf(v: FieldValue): Shape
  {
    match v
    case Text(_) => TextShape
    case Flag(_) => FlagShape
    case Number(_) => NumberShape
    case FileValue(_) => FileShape
    case Range(_) => RangeShape
  }

  /** The shape the generic handler gives an input of the given `type`. */
  function KindShape(kind: string): (s: Shape)
    ensures s != NumberShape && s != RangeShape
  {
    if kind == "checkbox" then FlagShape else if kind == "file" then FileShape else TextShape
  }

  /** The input's type alone decides the shape of what the generic handler
      stores, and it is never a number or a date range; the stored value is
      exactly the checked state, the first file, or the raw string. */
  lemma ChangedValueByKind(e: InputEvent)
    ensures ShapeOf(ChangedValue(e)) == KindShape(e.kind)
    ensures e.kind == "checkbox" ==> ChangedValue(e) == Flag(e.checked)
    ensures e.kind == "file" && e.files.Some? && e.files.value != [] ==>
      ChangedValue(e) == FileValue(Some(e.files.value[0]))
    ensures e.kind == "file" && (e.files.None? || e.files.value == []) ==> ChangedValue(e) == FileValue(None)
    ensures e.kind != "checkbox" && e.kind != "file" ==> ChangedValue(e) == Text(e.value)
  {
  }

  /** The rating and the range are the only fields whose rendered input
      stores a different shape from the one they start with: the slider
      reports a string where the record started with a number. */
  lemma OnlyNumbersChangeShape(k: string)
    requires k in RenderedType
    ensures k in InitialData
    ensures KindShape(RenderedType[k]) != ShapeOf(InitialData[k]) <==> k == "rating" || k == "range"
  {
  }

  /** Each field holds the shape it started with, or the shape its rendered
      input stores; and the record has exactly the initial fields. */
  predicate Consistent(data: map<string, FieldValue>)
  {
    && data.Keys == InitialData.Keys
    && forall k :: k in data ==>
         ShapeOf(data[k]) == ShapeOf(InitialData[k])
         || (k in RenderedType && ShapeOf(data[k]) == KindShape(RenderedType[k]))
  }

  /** An event from the element the page renders for a field. */
  predicate FromRenderedInput(e: InputEvent)
  {
    e.name in RenderedType && e.kind == RenderedType[e.name]
  }

  lemma InitialConsistent()
    ensures Consistent(InitialData)
  {
  }

  /** Events from the rendered inputs, a new date range and new rich text
      keep the record consistent: no field is added and none takes a shape
      foreign to it. */
  lemma HandlersKeepConsistent(data: map<string, FieldValue>, e: InputEvent, range: DateRange, content: string)
    requires Consistent(data)
    ensures FromRenderedInput(e) ==> Consistent(Update(data, e.name, ChangedValue(e)))
    ensures Consistent(Update(data, "dateRange", Range(range)))
    ensures Consistent(Update(data, "richTextContent", Text(content)))
  {
    if FromRenderedInput(e) {
      OnlyNumbersChangeShape(e.name);
      ChangedValueByKind(e);
    }
  }

  /** An event carrying a name the record does not have adds that name: the
      handler does not check it. */
  lemma UnknownNameAddsField(data: map<string, FieldValue>, e: InputEvent)
    requires Consistent(data) && e.name !in InitialData
    ensures !Consistent(Update(data, e.name, ChangedValue(e)))
  {
  }

  /** The page's state. */
  class SampleForm {
    var formData: map<string, FieldValue>

    constructor ()
      ensures formData == InitialData
    {
      formData := InitialData;
    }

    /** `handleInputChange`: the event's field takes the value its type
      calls for; nothing else changes. */
    method HandleInputChange(e: InputEvent)
      modifies this
      ensures formData == Update(old(formData), e.name, ChangedValue(e))
      ensures old(Consistent(formData)) && FromRenderedInput(e) ==> Consistent(formData)
    {
      if Consistent(formData) {
        HandlersKeepConsistent(formData, e, DateRange("", ""), "");
      }
      var v: FieldValue;
      if e.kind == "checkbox" {
        v := Flag(e.checked);
      } else if e.kind == "file" {
        v := FileValue(if e.files.Some? && |e.files.value| > 0 then Some(e.files.value[0]) else None);
      } else {
        v := Text(e.value);
      }
      formData := formData[e.name := v];
    }

    /** `handleDateRangeChange`: the whole date range is replaced. */
    method HandleDateRangeChange(range: DateRange)
      modifies this
      ensures formData == Update(old(formData), "dateRange", Range(range))
      ensures old(Consistent(formData)) ==> Consistent(formData)
    {
      if Consistent(formData) {
        HandlersKeepConsistent(formData, InputEvent("", "", "", false, None), range, "");
      }
      formData := formData["dateRange" := Range(range)];
    }

    /** `handleRichTextChange`: the editor's content is stored as given. */
    method HandleRichTextChange(content: string)
      modifies this
      ensures formData == Update(old(formData), "richTextContent", Text(content))
      ensures old(Consistent(formData)) ==> Consistent(formData)
    {
      if Consistent(formData) {
        HandlersKeepConsistent(formData, InputEvent("", "", "", false, None), DateRange("", ""), content);
      }
      formData := formData["richTextContent" := Text(content)];
    }

    /** `handleSubmit`: the record is reported, and left as it is. */
    method HandleSubmit() returns (submitted: map<string, FieldValue>)
      ensures submitted == formData
    {
      submitted := formData;
    }
  }

  /** Moving the rating slider turns the number 5 into the slider's string. */
  method SlideRating(value: string) returns (before: FieldValue, after: FieldValue, consistent: bool)
    ensures before == Number(5) && after == Text(value)
    ensures consistent
  {
    var page := new SampleForm();
    InitialConsistent();
    before := page.formData["rating"];
    page.HandleInputChange(InputEvent("rating", value, "range", false, None));
    after := page.formData["rating"];
    consistent := Consistent(page.formData);
  }

  /** Ticking the terms box sets it and no other box; opening the file
      chooser and choosing nothing stores no file. */
  method TickTermsThenChooseNothing() returns (terms: FieldValue, newsletter: FieldValue, file: FieldValue)
    ensures terms == Flag(true) && newsletter == Flag(false)
    ensures file == FileValue(None)
  {
    var page := new SampleForm();
    assert InitialData["newsletter"] == Flag(false);
    page.HandleInputChange(InputEvent("terms", "on", "checkbox", true, None));
    page.HandleInputChange(InputEvent("fileUpload", "", "file", false, Some([])));
    assert "newsletter" != "terms" && "newsletter" != "fileUpload" && "terms" != "fileUpload";
    terms := page.formData["terms"];
    newsletter := page.formData["newsletter"];
    file := page.formData["fileUpload"];
  }
}
