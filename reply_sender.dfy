// The reply-sender lambda: the content type chosen for an attachment, the
// acknowledgment e-mail bodies, and the required-field check in front of the
// SES call. The SES call itself is an input (its message id or its error).

module ReplySender {
  import opened Wrappers
  import opened Text
  import opened Items

  // ---------------------------------------------------------------------------
  // Content types
  // ---------------------------------------------------------------------------

  /** A MIME type, `main/sub`. */
  datatype MimeType = MimeType(main: string, sub: string)

  function Render(t: MimeType): (r: string)
    ensures |r| > |t.main| && r[|t.main|] == '/'
  {
    t.main + "/" + t.sub
  }

  const OCTET_STREAM := MimeType("application", "octet-stream")

  const CONTENT_TYPES: map<string, MimeType> := map[
    "pdf" := MimeType("application", "pdf"),
    "doc" := MimeType("application", "msword"),
    "docx" := MimeType("application", "vnd.openxmlformats-officedocument.wordprocessingml.document"),
    "xls" := MimeType("application", "vnd.ms-excel"),
    "xlsx" := MimeType("application", "vnd.openxmlformats-officedocument.spreadsheetml.sheet"),
    "jpg" := MimeType("image", "jpeg"),
    "jpeg" := MimeType("image", "jpeg"),
    "png" := MimeType("image", "png"),
    "gif" := MimeType("image", "gif"),
    "txt" := MimeType("text", "plain"),
    "csv" := MimeType("text", "csv")
  ]

  /** `filename.lower().split('.')[-1]`. */
  function Extension(filename: string): (r: string)
    ensures '.' !in r
    ensures |r| <= |filename| && r == Lower(filename)[|filename| - |r|..]
    ensures |r| < |filename| ==> Lower(filename)[|filename| - |r| - 1] == '.'
  {
    AfterLast(Lower(filename), '.')
  }

  /** The MIME type for a file name: by its lower-cased extension, with a generic default. */
  function GetContentType(filename: string): (r: string)
    ensures '/' in r
    ensures Extension(filename) in CONTENT_TYPES ==> r == Render(CONTENT_TYPES[Extension(filename)])
    ensures Extension(filename) !in CONTENT_TYPES ==> r == Render(OCTET_STREAM)
  {
    var ext := Extension(filename);
    Render(if ext in CONTENT_TYPES then CONTENT_TYPES[ext] else OCTET_STREAM)
  }

  /** The extension's case does not matter. */
  lemma ContentTypeIgnoresCase(filename: string)
    ensures GetContentType(Lower(filename)) == GetContentType(filename)
  {
    LowerIdempotent(filename);
  }

  /** A name without a dot is looked up whole. */
  lemma NoDotUsesWholeName(filename: string)
    requires '.' !in filename
    ensures Extension(filename) == Lower(filename)
  {
    var s := Lower(filename);
    forall i | 0 <= i < |s| ensures s[i] != '.' {
      assert filename[i] != '.';
    }
  }

  // ---------------------------------------------------------------------------
  // Acknowledgment e-mail
  // ---------------------------------------------------------------------------

  const ACK_TEXT_OPENING := "Thank you for your email regarding project "

  const ACK_TEXT_AFTER_ID := ".\n\nI've received and processed your message. Here's what I extracted:\n\n"

  function AckTextHead(projectId: string): string {
    ACK_TEXT_OPENING + projectId + ACK_TEXT_AFTER_ID
  }

  const ACK_TEXT_TAIL :=
    "\nIf any of this information is incorrect, please reply to this email with corrections.\n\n"
    + "Best regards,\nYour Project Tracking Assistant\n"

  const ACK_HTML_OPENING :=
    "<html>\n<head></head>\n<body>\n    <p>Thank you for your email regarding project "

  const ACK_HTML_AFTER_ID :=
    ".</p>\n    \n    <p>I've received and processed your message. Here's what I extracted:</p>\n"
    + "    \n    <ol>\n"

  function AckHtmlHead(projectId: string): string {
    ACK_HTML_OPENING + ("<strong>" + projectId + "</strong>") + ACK_HTML_AFTER_ID
  }

  const ACK_HTML_TAIL :=
    "    </ol>\n    \n"
    + "    <p>If any of this information is incorrect, please reply to this email with corrections.</p>\n"
    + "    \n    <p>Best regards,<br>\n    <em>Your Project Tracking Assistant</em></p>\n</body>\n</html>"

  /** The plain-text line for the point numbered `n`. */
  function NumberedLine(n: nat, point: string): string {
    NatToString(n) + ". " + point + "\n"
  }

  /** The points numbered from 1, one line each. */
  function NumberedList(points: seq<string>): string {
    if |points| == 0 then ""
    else NumberedList(points[..|points| - 1]) + NumberedLine(|points|, points[|points| - 1])
  }

  /** The HTML list entry for one point. */
  function ListItem(point: string): string {
    "        <li>" + point + "</li>\n"
  }

  function ItemList(points: seq<string>): string {
    if |points| == 0 then ""
    else ItemList(points[..|points| - 1]) + ListItem(points[|points| - 1])
  }

  datatype AckEmail = AckEmail(bodyText: string, bodyHtml: string)

  /** The plain-text and HTML bodies: a fixed opening, one entry per key point, a fixed closing. */
  method FormatAcknowledgmentEmail(projectId: string, keyPoints: seq<string>) returns (r: AckEmail)
    ensures r.bodyText == AckTextHead(projectId) + NumberedList(keyPoints) + ACK_TEXT_TAIL
    ensures r.bodyHtml == AckHtmlHead(projectId) + ItemList(keyPoints) + ACK_HTML_TAIL
  {
    var bodyText := AppendNumberedLines(AckTextHead(projectId), keyPoints);
    bodyText := bodyText + ACK_TEXT_TAIL;
    var bodyHtml := AppendListItems(AckHtmlHead(projectId), keyPoints);
    bodyHtml := bodyHtml + ACK_HTML_TAIL;
    r := AckEmail(bodyText, bodyHtml);
  }

  /** `for i, point in enumerate(key_points, 1): body_text += ...`. */
  method AppendNumberedLines(bodyText: string, keyPoints: seq<string>) returns (r: string)
    ensures r == bodyText + NumberedList(keyPoints)
  {
    r := bodyText;
    for i := 0 to |keyPoints|
      invariant r == bodyText + NumberedList(keyPoints[..i])
    {
      r := r + NumberedLine(i + 1, keyPoints[i]);
      assert keyPoints[..i + 1][..i] == keyPoints[..i];
    }
    assert keyPoints[..|keyPoints|] == keyPoints;
  }

  /** `for point in key_points: body_html += ...`. */
  method AppendListItems(bodyHtml: string, keyPoints: seq<string>) returns (r: string)
    ensures r == bodyHtml + ItemList(keyPoints)
  {
    r := bodyHtml;
    for i := 0 to |keyPoints|
      invariant r == bodyHtml + ItemList(keyPoints[..i])
    {
      r := r + ListItem(keyPoints[i]);
      assert keyPoints[..i + 1][..i] == keyPoints[..i];
    }
    assert keyPoints[..|keyPoints|] == keyPoints;
  }

  /** Point `k` is line `k + 1` of the numbered list, and the lines follow one another. */
  lemma {:induction false} NumberedLineAt(points: seq<string>, k: nat)
    requires k < |points|
    ensures OccursAt(NumberedList(points), NumberedLine(k + 1, points[k]), |NumberedList(points[..k])|)
    ensures |NumberedList(points[..k + 1])|
      == |NumberedList(points[..k])| + |NumberedLine(k + 1, points[k])|
  {
    var n := |points|;
    var init := points[..n - 1];
    assert points[..k + 1][..k] == points[..k];
    if k < n - 1 {
      NumberedLineAt(init, k);
      assert init[k] == points[k] && init[..k] == points[..k] && init[..k + 1] == points[..k + 1];
      var off := |NumberedList(points[..k])|;
      var line := NumberedLine(k + 1, points[k]);
      assert NumberedList(points) == NumberedList(init) + NumberedLine(n, points[n - 1]);
      assert NumberedList(points)[off..off + |line|] == NumberedList(init)[off..off + |line|];
    } else {
      assert init == points[..k];
    }
  }

  /** Point `k` is the `k`-th list entry of the HTML body, and the entries follow one another. */
  lemma {:induction false} ListItemAt(points: seq<string>, k: nat)
    requires k < |points|
    ensures OccursAt(ItemList(points), ListItem(points[k]), |ItemList(points[..k])|)
    ensures |ItemList(points[..k + 1])| == |ItemList(points[..k])| + |ListItem(points[k])|
  {
    var n := |points|;
    var init := points[..n - 1];
    assert points[..k + 1][..k] == points[..k];
    if k < n - 1 {
      ListItemAt(init, k);
      assert init[k] == points[k] && init[..k] == points[..k] && init[..k + 1] == points[..k + 1];
      var off := |ItemList(points[..k])|;
      var item := ListItem(points[k]);
      assert ItemList(points) == ItemList(init) + ListItem(points[n - 1]);
      assert ItemList(points)[off..off + |item|] == ItemList(init)[off..off + |item|];
    } else {
      assert init == points[..k];
    }
  }

  /** An occurrence inside the middle part is an occurrence inside the whole, shifted by the first part. */
  lemma OccursInMiddle(a: string, b: string, c: string, pat: string, off: int)
    requires OccursAt(b, pat, off)
    ensures OccursAt(a + b + c, pat, |a| + off)
  {
    assert (a + b + c)[|a| + off..|a| + off + |pat|] == b[off..off + |pat|];
  }

  /**
   * Wherever the numbered list sits in a body, point `k` is the line numbered
   * `k + 1`, right after the lines of the points before it.
   */
  lemma {:induction false} NumberedLineInBody(head: string, keyPoints: seq<string>, tail: string, k: nat)
    requires k < |keyPoints|
    ensures OccursAt(head + NumberedList(keyPoints) + tail, NumberedLine(k + 1, keyPoints[k]),
                     |head| + |NumberedList(keyPoints[..k])|)
  {
    NumberedLineAt(keyPoints, k);
    OccursInMiddle(head, NumberedList(keyPoints), tail,
                   NumberedLine(k + 1, keyPoints[k]), |NumberedList(keyPoints[..k])|);
  }

  /** Wherever the HTML list sits in a body, its `k`-th entry carries point `k`. */
  lemma {:induction false} ListItemInBody(head: string, keyPoints: seq<string>, tail: string, k: nat)
    requires k < |keyPoints|
    ensures OccursAt(head + ItemList(keyPoints) + tail, ListItem(keyPoints[k]),
                     |head| + |ItemList(keyPoints[..k])|)
  {
    ListItemAt(keyPoints, k);
    OccursInMiddle(head, ItemList(keyPoints), tail, ListItem(keyPoints[k]), |ItemList(keyPoints[..k])|);
  }

  /** An occurrence inside a string survives appending to it. */
  lemma OccursInPrefix(b: string, c: string, pat: string, off: int)
    requires OccursAt(b, pat, off)
    ensures OccursAt(b + c, pat, off)
  {
    assert (b + c)[off..off + |pat|] == b[off..off + |pat|];
  }

  /** Both bodies name the project; the HTML one shows it in bold. */
  lemma {:induction false} AckMentionsProject(projectId: string, keyPoints: seq<string>)
    ensures Contains(AckTextHead(projectId) + NumberedList(keyPoints) + ACK_TEXT_TAIL, projectId)
    ensures Contains(AckHtmlHead(projectId) + ItemList(keyPoints) + ACK_HTML_TAIL,
                     "<strong>" + projectId + "</strong>")
  {
    var head := AckTextHead(projectId);
    OccursInMiddle(ACK_TEXT_OPENING, projectId, ACK_TEXT_AFTER_ID, projectId, 0);
    OccursInPrefix(head, NumberedList(keyPoints), projectId, |ACK_TEXT_OPENING|);
    OccursInPrefix(head + NumberedList(keyPoints), ACK_TEXT_TAIL, projectId, |ACK_TEXT_OPENING|);
    ContainsAt(head + NumberedList(keyPoints) + ACK_TEXT_TAIL, projectId, |ACK_TEXT_OPENING|);
    var strong := "<strong>" + projectId + "</strong>";
    var hhead := AckHtmlHead(projectId);
    OccursInMiddle(ACK_HTML_OPENING, strong, ACK_HTML_AFTER_ID, strong, 0);
    OccursInPrefix(hhead, ItemList(keyPoints), strong, |ACK_HTML_OPENING|);
    OccursInPrefix(hhead + ItemList(keyPoints), ACK_HTML_TAIL, strong, |ACK_HTML_OPENING|);
    ContainsAt(hhead + ItemList(keyPoints) + ACK_HTML_TAIL, strong, |ACK_HTML_OPENING|);
  }

  // ---------------------------------------------------------------------------
  // Required fields
  // ---------------------------------------------------------------------------

  const MISSING_FIELDS_ERROR := "Missing required fields: to_address, subject, or body_text"

  /** The JSON body of the lambda's answer. */
  datatype ReplyBody = Sent(messageId: string) | Failed(error: string)

  /** The lambda's answer, and whether the SES call was made at all. */
  datatype ReplyResponse = ReplyResponse(statusCode: int, body: ReplyBody, sendAttempted: bool)

  predicate HasRequiredFields(event: Item) {
    Truthy(Get(event, "to_address")) && Truthy(Get(event, "subject")) && Truthy(Get(event, "body_text"))
  }

  /**
   * The reply-sender lambda. `sendOutcome` is what the SES call would give:
   * the message id, or the text of the error it raises.
   */
  function SendReply(event: Item, sendOutcome: Result<string, string>): (r: ReplyResponse)
    ensures r.statusCode == 200 || r.statusCode == 500
    ensures r.sendAttempted <==> HasRequiredFields(event)
    ensures r.statusCode == 200 <==> HasRequiredFields(event) && sendOutcome.Ok?
    ensures r.statusCode == 200 ==> r.body == Sent(sendOutcome.value)
    ensures !HasRequiredFields(event) ==> r.body == Failed(MISSING_FIELDS_ERROR)
    ensures HasRequiredFields(event) && sendOutcome.Err? ==> r.body == Failed(sendOutcome.error)
  {
    if !HasRequiredFields(event) then ReplyResponse(500, Failed(MISSING_FIELDS_ERROR), false)
    else match sendOutcome {
      case Ok(id) => ReplyResponse(200, Sent(id), true)
      case Err(e) => ReplyResponse(500, Failed(e), true)
    }
  }

  /** A missing or empty field is reported the same way whatever SES would have done. */
  lemma MissingFieldIgnoresSes(event: Item, o1: Result<string, string>, o2: Result<string, string>)
    requires Get(event, "to_address") in {Null, Str("")} || Get(event, "subject") in {Null, Str("")}
      || Get(event, "body_text") in {Null, Str("")}
    ensures SendReply(event, o1) == SendReply(event, o2)
    ensures SendReply(event, o1) == ReplyResponse(500, Failed(MISSING_FIELDS_ERROR), false)
  {
  }
}
