/**
 * The rich text an operation describes itself with: plain runs and highlighted
 * values, a short description and an optional long one.
 */
module Documentation {
  import opened Wrappers

  datatype DescriptionPart = Plain(text: string) | Hilite(value: Option<string>)

  datatype RichDescription = RichDescription(parts: seq<DescriptionPart>)

  datatype ExtendedRichDescription = ExtendedRichDescription(shortDescription: RichDescription, longDescription: Option<RichDescription>)

  /** IOperationConfiguration's indexer: the property's text as written, null when absent. */
  function ConfigValue(config: map<string, string>, property: string): Option<string>
  {
    if property in config then Some(config[property]) else None
  }
}
