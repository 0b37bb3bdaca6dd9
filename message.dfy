/**
 * The form payload and the attachment list that Client.send_mail builds
 * before posting a message.
 */
module Message {
  import opened Wrappers
  import opened Api

  /** The field names send_mail may put in a payload. */
  const FieldNames := {"from", "to", "subject", "text", "html", "cc", "bcc"}

  /**
   * The payload of a send: from, to, subject and text always, then html,
   * cc and bcc each only when given a truthy value, and nothing else.
   */
  function Payload(sender: Value, to: Value, subject: Value, text: Value,
                   html: Value, cc: Value, bcc: Value): (data: Form)
    ensures data.Keys <= FieldNames
    ensures "from" in data && data["from"] == sender && "to" in data && data["to"] == to
    ensures "subject" in data && data["subject"] == subject && "text" in data && data["text"] == text
    ensures ("html" in data <==> html.Truthy()) && ("html" in data ==> data["html"] == html)
    ensures ("cc" in data <==> cc.Truthy()) && ("cc" in data ==> data["cc"] == cc)
    ensures ("bcc" in data <==> bcc.Truthy()) && ("bcc" in data ==> data["bcc"] == bcc)
  {
    var required := map["from" := sender, "to" := to, "subject" := subject, "text" := text];
    var withHtml := if html.Truthy() then required["html" := html] else required;
    var withCc := if cc.Truthy() then withHtml["cc" := cc] else withHtml;
    if bcc.Truthy() then withCc["bcc" := bcc] else withCc
  }

  /**
   * Builds the payload as send_mail does, starting from the required
   * fields and inserting each optional one when it is truthy.
   */
  method BuildPayload(sender: Value, to: Value, subject: Value, text: Value,
                      html: Value, cc: Value, bcc: Value) returns (data: Form)
    ensures data == Payload(sender, to, subject, text, html, cc, bcc)
  {
    data := map["from" := sender, "to" := to, "subject" := subject, "text" := text];
    if html.Truthy() {
      data := data["html" := html];
    }
    if cc.Truthy() {
      data := data["cc" := cc];
    }
    if bcc.Truthy() {
      data := data["bcc" := bcc];
    }
  }

  /** The paths of `files`: none when falsy, a single path as a one-element list. */
  function Paths(files: Value): (paths: seq<string>)
    ensures !files.Truthy() ==> paths == []
    ensures files.Truthy() && files.Text? ==> paths == [files.s]
    ensures files.Texts? ==> paths == files.items
  {
    if !files.Truthy() then []
    else if files.Texts? then files.items
    else [files.s]
  }

  /** Every path of `files`, opened, under the repeated field name `attachment`, in order. */
  function Attachments(files: Value): (attached: seq<Attachment>)
    ensures |attached| == |Paths(files)|
    ensures forall i :: 0 <= i < |attached| ==>
              attached[i] == Attachment("attachment", OpenedFile(Paths(files)[i]))
  {
    var paths := Paths(files);
    seq(|paths|, i requires 0 <= i < |paths| => Attachment("attachment", OpenedFile(paths[i])))
  }

  /** Builds the attachment list as send_mail does, appending one entry per path. */
  method Attach(files: Value) returns (attached: seq<Attachment>)
    ensures attached == Attachments(files)
  {
    attached := [];
    if files.Truthy() {
      var paths := if files.Texts? then files.items else [files.s];
      for i := 0 to |paths|
        invariant |attached| == i
        invariant forall j :: 0 <= j < i ==> attached[j] == Attachment("attachment", OpenedFile(paths[j]))
      {
        attached := attached + [Attachment("attachment", OpenedFile(paths[i]))];
      }
    }
  }
}
