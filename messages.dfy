/** The previews the message tools show: the short preview in message lists and the body
    excerpt of `get_message_details`. */
module Messages {
  import opened Wrappers
  import opened Text

  /** How much of a message preview the message lists show. */
  const PreviewWidth := 100

  /** How much of a message body `get_message_details` shows. */
  const BodyWidth := 500

  /** The "Preview" line of a message in `get_conversation_messages` and
      `search_messages_by_email_id`: none for an empty preview, otherwise the first 100
      characters, with an ellipsis exactly when the preview was longer. */
  function MessagePreview(preview: string): (shown: Option<string>)
    ensures shown.None? <==> preview == []
    ensures shown.Some? ==> Prefix(preview, PreviewWidth) <= shown.value
    ensures shown.Some? ==> (|shown.value| > PreviewWidth <==> |preview| > PreviewWidth)
    ensures shown.Some? && |preview| <= PreviewWidth ==> shown.value == preview
    ensures shown.Some? && |preview| > PreviewWidth ==> shown.value == preview[..PreviewWidth] + "..."
  {
    if preview == [] then None else Some(Ellipsize(preview, PreviewWidth))
  }

  /** The "Body" line of `get_message_details`: none for an empty body, otherwise the first 500
      characters of the body with its tags removed (`stripped`, computed by a regular
      expression outside this model), with an ellipsis exactly when it was longer. */
  function BodyExcerpt(body: string, stripped: string): (shown: Option<string>)
    ensures shown.None? <==> body == []
    ensures shown.Some? ==> Prefix(stripped, BodyWidth) <= shown.value
    ensures shown.Some? ==> (|shown.value| > BodyWidth <==> |stripped| > BodyWidth)
    ensures shown.Some? && |stripped| <= BodyWidth ==> shown.value == stripped
    ensures shown.Some? && |stripped| > BodyWidth ==> shown.value == stripped[..BodyWidth] + "..."
  {
    if body == [] then None else Some(Ellipsize(stripped, BodyWidth))
  }
}
