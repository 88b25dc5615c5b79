/**
 * `ErrorService` (app/services/error_service.py): the mapping from an error
 * type to an HTTP status and user-facing texts, and the HTML shown for an
 * error. Context values are held as the text Python's f-strings print.
 */
module Errors {
  import opened Base
  import opened Text
  import opened Dicts

  /** One entry of `error_templates`. */
  datatype Template = Template(statusCode: int, detail: string, message: string)

  /** `self.error_templates`. */
  const ErrorTemplates: map<string, Template> := map[
    "database_error" := Template(500, "Database operation failed", "An error occurred while accessing the database"),
    "ai_error" := Template(500, "AI service error", "An error occurred while processing your request with AI"),
    "memory_error" := Template(500, "Memory service error", "An error occurred while accessing conversation memory"),
    "validation_error" := Template(400, "Validation error", "Invalid input provided")
  ]

  /** The template used for a type the table does not know. */
  const UnknownTemplate: Template := Template(500, "Unknown error", "An unexpected error occurred")

  /** The `"error"` object of an error response; `context` is `{}` where the response has none. */
  datatype ErrorInfo = ErrorInfo(errorType: string, message: string, detail: string, context: Dict<string>)

  /** An `HTTPException.detail`: a dict holding `"error"`, or any other value, kept as its `str()`. */
  datatype Detail = Structured(info: ErrorInfo) | Other(text: string)

  datatype HttpError = HttpError(statusCode: int, detail: Detail)

  /** `self.error_templates.get(error_type, <default>)`. */
  function TemplateFor(errorType: string): (t: Template)
    ensures errorType in ErrorTemplates ==> t == ErrorTemplates[errorType]
    ensures errorType !in ErrorTemplates ==> t == UnknownTemplate
  {
    if errorType in ErrorTemplates then ErrorTemplates[errorType] else UnknownTemplate
  }

  /** `handle_error(error_type, error, context)`; the error itself only goes to the log. */
  function HandleError(errorType: string, context: Option<Dict<string>>): (r: HttpError)
    ensures r.statusCode == TemplateFor(errorType).statusCode
    ensures r.detail == Structured(ErrorInfo(errorType, TemplateFor(errorType).message,
                                             TemplateFor(errorType).detail, context.GetOr([])))
  {
    var template := TemplateFor(errorType);
    HttpError(template.statusCode, Structured(ErrorInfo(errorType, template.message, template.detail, context.GetOr([]))))
  }

  /** Only a validation error is a client error; every other type, known or not, is a server error. */
  lemma StatusCodes(errorType: string, context: Option<Dict<string>>)
    ensures HandleError(errorType, context).statusCode == (if errorType == "validation_error" then 400 else 500)
  {
    if errorType in ErrorTemplates {
      assert errorType == "database_error" || errorType == "ai_error" || errorType == "memory_error"
          || errorType == "validation_error";
    }
  }

  /** An unknown type gets status 500 with "Unknown error" and "An unexpected error occurred". */
  lemma UnknownType(errorType: string, context: Option<Dict<string>>)
    requires errorType !in ErrorTemplates
    ensures var r := HandleError(errorType, context);
            && r.statusCode == 500
            && r.detail.info.detail == "Unknown error"
            && r.detail.info.message == "An unexpected error occurred"
  {
  }

  // ----- display -----

  const ContextHeader: string := "<p><strong>Context:</strong></p><ul>"

  function ContextItem(key: string, value: string): string {
    "<li><strong>" + key + ":</strong> " + value + "</li>"
  }

  function ContextItems(ctx: Dict<string>): string
    decreases |ctx|
  {
    if ctx == [] then "" else ContextItem(ctx[0].0, ctx[0].1) + ContextItems(ctx[1..])
  }

  /** `_format_context(context)`. */
  function ContextHtml(ctx: Dict<string>): string {
    if ctx == [] then "" else ContextHeader + ContextItems(ctx) + "</ul>"
  }

  /** An empty context renders as nothing; any other as one `<ul>` wrapping its items. */
  lemma ContextHtmlShape(ctx: Dict<string>)
    ensures ContextHtml(ctx) == "" <==> ctx == []
    ensures ctx != [] ==> StartsWith(ContextHtml(ctx), ContextHeader) && EndsWith(ContextHtml(ctx), "</ul>")
  {
    if ctx != [] {
      var h := ContextHtml(ctx);
      assert h[..|ContextHeader|] == ContextHeader;
      assert h[|h| - 5..] == "</ul>";
    }
  }

  /** Items render one per entry, in insertion order. */
  lemma {:induction false} ContextItemsAppend(a: Dict<string>, b: Dict<string>)
    ensures ContextItems(a + b) == ContextItems(a) + ContextItems(b)
    decreases |a|
  {
    if a == [] {
      assert a + b == b;
    } else {
      assert (a + b)[0] == a[0] && (a + b)[1..] == a[1..] + b;
      ContextItemsAppend(a[1..], b);
    }
  }

  /** `_format_context` as the source computes it, accumulating the HTML with `+=`. */
  method FormatContext(context: Dict<string>) returns (html: string)
    ensures html == ContextHtml(context)
  {
    if context == [] {
      return "";
    }
    html := ContextHeader;
    var i := 0;
    while i < |context|
      invariant 0 <= i <= |context|
      invariant html + ContextItems(context[i..]) + "</ul>" == ContextHtml(context)
    {
      assert context[i..][1..] == context[i + 1..];
      html := html + ContextItem(context[i].0, context[i].1);
      i := i + 1;
    }
    html := html + "</ul>";
  }

  const DisplayOpening: string := "\n            <div class=\"error-container\">\n"

  const DisplayIndent: string := "                "
  const DisplayClosing: string := "            </div>\n            "

  /** One indented line of the error display. */
  function DisplayLine(x: string): string {
    DisplayIndent + x + "\n"
  }

  function TitleHtml(info: ErrorInfo): string {
    "<h3>Error: " + info.errorType + "</h3>"
  }

  function MessageHtml(info: ErrorInfo): string {
    "<p><strong>Message:</strong> " + info.message + "</p>"
  }

  function DetailsHtml(info: ErrorInfo): string {
    "<p><strong>Details:</strong> " + info.detail + "</p>"
  }

  /** The lines after the opening `<div>` of the error display. */
  function DisplayBody(info: ErrorInfo): string {
    DisplayLine(TitleHtml(info)) + DisplayLine(MessageHtml(info)) + DisplayLine(DetailsHtml(info))
    + DisplayLine(ContextHtml(info.context)) + DisplayClosing
  }

  /** `format_error_for_display(error)`: HTML for a structured error, `str(detail)` otherwise. */
  function FormatErrorForDisplay(error: HttpError): (html: string)
    ensures error.detail.Other? ==> html == error.detail.text
    ensures error.detail.Structured? ==> html == DisplayOpening + DisplayBody(error.detail.info)
  {
    match error.detail
    case Other(text) => text
    case Structured(info) => DisplayOpening + DisplayBody(info)
  }

  /** The text of a display line occurs in the line. */
  lemma InLine(x: string)
    ensures Contains(DisplayLine(x), x)
  {
    assert DisplayLine(x)[|DisplayIndent|..|DisplayIndent| + |x|] == x;
    OccursAtContains(DisplayLine(x), x, |DisplayIndent|);
  }

  /** Each of four display lines after an opening `o` and before a closing `c` occurs in the whole. */
  lemma InFourLines(o: string, x1: string, x2: string, x3: string, x4: string, c: string)
    ensures var html := o + (DisplayLine(x1) + DisplayLine(x2) + DisplayLine(x3) + DisplayLine(x4) + c);
            Contains(html, x1) && Contains(html, x2) && Contains(html, x3) && Contains(html, x4)
  {
    var l1, l2, l3, l4 := DisplayLine(x1), DisplayLine(x2), DisplayLine(x3), DisplayLine(x4);
    InLine(x1);
    ContainsExtendRight(l1, l2, x1);
    ContainsExtendRight(l1 + l2, l3, x1);
    ContainsExtendRight(l1 + l2 + l3, l4, x1);
    ContainsExtendRight(l1 + l2 + l3 + l4, c, x1);
    ContainsExtendLeft(o, l1 + l2 + l3 + l4 + c, x1);
    InLine(x2);
    ContainsExtendLeft(l1, l2, x2);
    ContainsExtendRight(l1 + l2, l3, x2);
    ContainsExtendRight(l1 + l2 + l3, l4, x2);
    ContainsExtendRight(l1 + l2 + l3 + l4, c, x2);
    ContainsExtendLeft(o, l1 + l2 + l3 + l4 + c, x2);
    InLine(x3);
    ContainsExtendLeft(l1 + l2, l3, x3);
    ContainsExtendRight(l1 + l2 + l3, l4, x3);
    ContainsExtendRight(l1 + l2 + l3 + l4, c, x3);
    ContainsExtendLeft(o, l1 + l2 + l3 + l4 + c, x3);
    InLine(x4);
    ContainsExtendLeft(l1 + l2 + l3, l4, x4);
    ContainsExtendRight(l1 + l2 + l3 + l4, c, x4);
    ContainsExtendLeft(o, l1 + l2 + l3 + l4 + c, x4);
  }

  /** The display of a structured error opens the container and shows its type, message, detail and context. */
  lemma DisplayShowsError(info: ErrorInfo)
    ensures var html := FormatErrorForDisplay(HttpError(500, Structured(info)));
            && StartsWith(html, DisplayOpening)
            && Contains(html, TitleHtml(info))
            && Contains(html, MessageHtml(info))
            && Contains(html, DetailsHtml(info))
            && Contains(html, ContextHtml(info.context))
  {
    InFourLines(DisplayOpening, TitleHtml(info), MessageHtml(info), DetailsHtml(info), ContextHtml(info.context),
                DisplayClosing);
    ConcatEdges(DisplayOpening, DisplayBody(info));
  }
}
