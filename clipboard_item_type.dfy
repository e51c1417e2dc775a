/**
 * ClipZen/ClipboardItemType.swift: the four item kinds of the Core Data
 * revision, their raw values, and the symbol and colour the history list
 * shows for each.
 */
module ItemTypes {
  import opened Common

  datatype ClipboardItemType = Text | Image | Pdf | File

  /** The SwiftUI colours the list uses. */
  datatype Color = Green | Blue | Red | Orange

  function RawValue(t: ClipboardItemType): string {
    match t
    case Text => "text"
    case Image => "image"
    case Pdf => "pdf"
    case File => "file"
  }

  /** `ClipboardItemType(rawValue:)`: the case whose raw value is `s`, if any. */
  function FromRawValue(s: string): (r: Option<ClipboardItemType>)
    ensures forall t :: RawValue(t) == s <==> r == Some(t)
    ensures r.None? <==> s !in {"text", "image", "pdf", "file"}
  {
    match s
    case "text" => Some(Text)
    case "image" => Some(Image)
    case "pdf" => Some(Pdf)
    case "file" => Some(File)
    case _ => None
  }

  /** Raw values round-trip, so no two cases share one. */
  lemma RawValueRoundTrip(t: ClipboardItemType)
    ensures FromRawValue(RawValue(t)) == Some(t)
  {
  }

  /** The SF Symbol name of `icon`. */
  function IconName(t: ClipboardItemType): string {
    match t
    case Text => "doc.text"
    case Image => "photo"
    case Pdf => "doc.fill"
    case File => "doc"
  }

  lemma IconNamesDistinct(a: ClipboardItemType, b: ClipboardItemType)
    ensures IconName(a) == IconName(b) <==> a == b
  {
  }

  /** `color`. */
  function ColorOf(t: ClipboardItemType): Color {
    match t
    case Text => Green
    case Image => Blue
    case Pdf => Red
    case File => Orange
  }

  lemma ColorsDistinct(a: ClipboardItemType, b: ClipboardItemType)
    ensures ColorOf(a) == ColorOf(b) <==> a == b
  {
  }
}
