/** Document content as the frontend pipes receive it. */
module DocumentContent {
  /** A field's content: one string, or a list of paragraphs (`string | string[]`). */
  datatype Text = Plain(s: string) | Paragraphs(items: seq<string>)
}
