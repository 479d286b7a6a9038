/** The chat-ops webhook parser (src/handlers/webhook.ts): decides from the
    message text whether a chat message reports an error, grades its
    severity, and folds the attachments into the message and the metadata. */
module Webhook {
  import opened Wrappers
  import opened Strings
  import opened Types

  /** `payload.text || ''` */
  function TextOf(payload: SlackPayload): string {
    payload.text.GetOr("")
  }

  /** `payload.attachments || []` */
  function AttachmentsOf(payload: SlackPayload): seq<SlackAttachment> {
    payload.attachments.GetOr([])
  }

  /** The message text mentions an error, an exception or a failure, in any
      letter case. Attachments are not consulted. */
  predicate IsErrorText(text: string) {
    var t := Lower(text);
    Includes(t, "error") || Includes(t, "exception") || Includes(t, "failed")
  }

  /** A message naming an error word in any letter case, such as "Error" or
      "FAILED", is an error message. */
  lemma ErrorWordInAnyCase(text: string, word: string)
    requires Includes(text, word)
    requires Lower(word) == "error" || Lower(word) == "exception" || Lower(word) == "failed"
    ensures IsErrorText(text)
  {
    IncludesOccurs(text, word);
    var i :| OccursAt(text, word, i);
    LowerKeepsOccurrence(text, word, i);
    IncludesOccurs(Lower(text), Lower(word));
  }

  /** The texts of the attachments whose text is present and non-empty, in
      list order. */
  function AttachmentTexts(atts: seq<SlackAttachment>): (r: seq<string>)
    ensures |r| <= |atts|
    ensures forall k :: 0 <= k < |r| ==> r[k] != "" && exists j :: 0 <= j < |atts| && atts[j].text == Some(r[k])
    ensures (forall j :: 0 <= j < |atts| ==> atts[j].text.Some? && atts[j].text.value != "") ==> |r| == |atts|
  {
    if atts == [] then []
    else
      var last := atts[|atts| - 1];
      AttachmentTexts(atts[..|atts| - 1])
        + (if last.text.Some? && last.text.value != "" then [last.text.value] else [])
  }

  function FieldsOf(a: SlackAttachment): seq<SlackField> {
    a.fields.GetOr([])
  }

  /** Every field of every attachment, in attachment order then field order. */
  function AllFields(atts: seq<SlackAttachment>): seq<SlackField> {
    if atts == [] then []
    else AllFields(atts[..|atts| - 1]) + FieldsOf(atts[|atts| - 1])
  }

  /** The metadata record built by writing each field's value under its
      title, one field after the other. */
  function FieldMap(fields: seq<SlackField>): (r: Metadata)
    ensures forall key :: key in r ==> r[key].Some?
    ensures |fields| > 0 ==> var last := fields[|fields| - 1];
      last.title in r && r[last.title] == Some(last.value)
  {
    if fields == [] then map[]
    else
      var last := fields[|fields| - 1];
      FieldMap(fields[..|fields| - 1])[last.title := Some(last.value)]
  }

  /** One more attachment adds its text and its fields. */
  lemma AttachmentStep(atts: seq<SlackAttachment>, k: nat)
    requires k < |atts|
    ensures AttachmentTexts(atts[..k + 1]) == AttachmentTexts(atts[..k])
      + (if atts[k].text.Some? && atts[k].text.value != "" then [atts[k].text.value] else [])
    ensures AllFields(atts[..k + 1]) == AllFields(atts[..k]) + FieldsOf(atts[k])
  {
    assert atts[..k + 1][..k] == atts[..k];
  }

  /** One more attachment adds its text, when it has one, as a new line of
      the message. */
  lemma MessageStep(text: string, atts: seq<SlackAttachment>, k: nat, message: string)
    requires k < |atts|
    requires message == JoinWith([text] + AttachmentTexts(atts[..k]), "\n")
    ensures var a := atts[k];
      (if a.text.Some? && a.text.value != "" then message + "\n" + a.text.value else message)
        == JoinWith([text] + AttachmentTexts(atts[..k + 1]), "\n")
  {
    AttachmentStep(atts, k);
    var a := atts[k];
    var lines := [text] + AttachmentTexts(atts[..k]);
    if a.text.Some? && a.text.value != "" {
      JoinWithSnoc(lines, a.text.value, "\n");
      assert [text] + AttachmentTexts(atts[..k + 1]) == lines + [a.text.value];
    } else {
      assert [text] + AttachmentTexts(atts[..k + 1]) == lines;
    }
  }

  /** One more field is written over the record built so far. */
  lemma FieldStep(prefix: seq<SlackField>, fields: seq<SlackField>, j: nat)
    requires j < |fields|
    ensures FieldMap(prefix + fields[..j + 1]) == FieldMap(prefix + fields[..j])[fields[j].title := Some(fields[j].value)]
  {
    var before := prefix + fields[..j + 1];
    assert before[..|before| - 1] == prefix + fields[..j];
  }

  /** The fields of two lists of attachments are those of the first followed
      by those of the second. */
  lemma {:induction false} AllFieldsAppend(a: seq<SlackAttachment>, b: seq<SlackAttachment>)
    ensures AllFields(a + b) == AllFields(a) + AllFields(b)
  {
    if b == [] {
      assert a + b == a;
    } else {
      var ab := a + b;
      assert ab[..|ab| - 1] == a + b[..|b| - 1];
      AllFieldsAppend(a, b[..|b| - 1]);
    }
  }

  /** The metadata keys are exactly the field titles. */
  lemma {:induction false} FieldMapKeys(fields: seq<SlackField>, key: string)
    ensures key in FieldMap(fields) <==> exists j :: 0 <= j < |fields| && fields[j].title == key
  {
    if fields != [] {
      var init := fields[..|fields| - 1];
      FieldMapKeys(init, key);
      if key in FieldMap(init) {
        var j :| 0 <= j < |init| && init[j].title == key;
        assert fields[j].title == key;
      }
      if j :| 0 <= j < |fields| && fields[j].title == key {
        if j < |init| {
          assert init[j].title == key;
        }
      }
    }
  }

  /** A key holds the value of the last field with that title. */
  lemma {:induction false} FieldMapLastWins(fields: seq<SlackField>, j: nat)
    requires j < |fields|
    requires forall k :: j < k < |fields| ==> fields[k].title != fields[j].title
    ensures fields[j].title in FieldMap(fields)
    ensures FieldMap(fields)[fields[j].title] == Some(fields[j].value)
  {
    var init := fields[..|fields| - 1];
    if j < |init| {
      FieldMapLastWins(init, j);
    }
  }

  /** The inner loop of `handleSlackWebhook`: writes each field's value
      under its title, one field after the other, over the record built from
      the fields `done` before them. */
  method WriteFields(metadata: Metadata, ghost done: seq<SlackField>, fields: seq<SlackField>) returns (r: Metadata)
    requires metadata == FieldMap(done)
    ensures r == FieldMap(done + fields)
  {
    r := metadata;
    assert done + fields[..0] == done;
    for j := 0 to |fields|
      invariant r == FieldMap(done + fields[..j])
    {
      FieldStep(done, fields, j);
      r := r[fields[j].title := Some(fields[j].value)];
    }
    assert fields[..|fields|] == fields;
  }

  /** `WebhookHandler.handleSlackWebhook`: `None` for a message that reports
      no error, otherwise the normalised event. `now` is the clock reading
      taken for the event's timestamp. */
  method HandleSlackWebhook(payload: SlackPayload, now: int) returns (r: Option<ErrorEvent>)
    ensures r.None? <==> !IsErrorText(TextOf(payload))
    ensures payload.text.None? || payload.text == Some("") ==> r.None?
    ensures r.Some? ==> r.value.source == Slack && r.value.timestamp == Instant(now)
    ensures r.Some? ==> r.value.stackTrace.None? && r.value.environment.None?
    ensures r.Some? ==> r.value.message == JoinWith([TextOf(payload)] + AttachmentTexts(AttachmentsOf(payload)), "\n")
    ensures r.Some? ==> TextOf(payload) <= r.value.message
    ensures r.Some? ==> r.value.metadata == Some(FieldMap(AllFields(AttachmentsOf(payload))))
    ensures r.Some? && Includes(Lower(TextOf(payload)), "critical") ==> r.value.severity == Some(Critical)
    ensures r.Some? ==> (r.value.severity == Some(Warning) <==>
      !Includes(Lower(TextOf(payload)), "critical") && Includes(Lower(TextOf(payload)), "warning"))
    ensures r.Some? ==> (r.value.severity == Some(Error) <==>
      !Includes(Lower(TextOf(payload)), "critical") && !Includes(Lower(TextOf(payload)), "warning"))
  {
    var text := TextOf(payload);
    var attachments := AttachmentsOf(payload);
    var lowered := Lower(text);

    var isError := Includes(lowered, "error") || Includes(lowered, "exception") || Includes(lowered, "failed");
    if !isError {
      return None;
    }

    var errorMessage := text;
    var severity := Error;
    if Includes(lowered, "critical") {
      severity := Critical;
    } else if Includes(lowered, "warning") {
      severity := Warning;
    }

    var metadata: Metadata := map[];
    assert attachments[..0] == [];
    for k := 0 to |attachments|
      invariant errorMessage == JoinWith([text] + AttachmentTexts(attachments[..k]), "\n")
      invariant metadata == FieldMap(AllFields(attachments[..k]))
    {
      var attachment := attachments[k];
      AttachmentStep(attachments, k);
      MessageStep(text, attachments, k, errorMessage);
      if attachment.text.Some? && attachment.text.value != "" {
        errorMessage := errorMessage + "\n" + attachment.text.value;
      }
      if attachment.fields.Some? {
        metadata := WriteFields(metadata, AllFields(attachments[..k]), attachment.fields.value);
      } else {
        assert AllFields(attachments[..k]) + [] == AllFields(attachments[..k]);
      }
    }
    assert attachments[..|attachments|] == attachments;
    JoinWithStartsWithFirst([text] + AttachmentTexts(attachments), "\n");

    return Some(ErrorEvent(Slack, Instant(now), errorMessage, None, None, Some(severity), Some(metadata)));
  }

  /** `WebhookHandler.validateWebhookSignature`: a placeholder that accepts
      every signature, payload and secret. */
  function ValidateWebhookSignature(signature: string, payload: string, secret: string): (valid: bool)
    ensures valid
  {
    true
  }
}
