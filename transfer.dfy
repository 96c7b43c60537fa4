/** The export document and the guard `importData` applies to a parsed file
    before it replaces the collection. */
module Transfer {
  import opened Collections
  import opened Cards

  const ExportVersion: string := "1.0"

  /** `{ cards, exportDate, version: '1.0', theme }` as `exportData` writes it. */
  datatype ExportDocument = ExportDocument(cards: seq<Card>, exportDate: Timestamp, version: string, theme: string)

  /** The `cards` member of a parsed file: an array of cards, or anything else
      (absent, null, a string, an object...). */
  datatype CardsField = CardArray(items: seq<Card>) | NotAnArray

  /** A chosen file: text that `JSON.parse` rejects, or a parsed document. */
  datatype ImportFile = Unparsable | Document(cards: CardsField, theme: Option<string>)

  function Export(cards: seq<Card>, now: Timestamp, theme: string): (d: ExportDocument)
    ensures d.cards == cards && d.version == ExportVersion
    ensures d.exportDate == now && d.theme == theme
  {
    ExportDocument(cards, now, ExportVersion, theme)
  }

  /** The file an export produces, as `importData` parses it back (the empty
      theme is falsy and reads as no theme). */
  function Reread(d: ExportDocument): (f: ImportFile)
    ensures f.Document? && f.cards == CardArray(d.cards)
  {
    Document(CardArray(d.cards), if d.theme == "" then None else Some(d.theme))
  }

  /** `!importData.cards || !Array.isArray(importData.cards)`: the replacement
      collection when the file passes the guard, `None` when it is rejected. */
  function ImportedCards(f: ImportFile): (r: Option<seq<Card>>)
    ensures r.Some? <==> f.Document? && f.cards.CardArray?
    ensures r.Some? ==> r.value == f.cards.items
  {
    match f
    case Document(CardArray(items), _) => Some(items)
    case _ => None
  }

  /** Exporting and importing the result gives back the same collection. */
  lemma ExportImportRoundTrip(cards: seq<Card>, now: Timestamp, theme: string)
    ensures ImportedCards(Reread(Export(cards, now, theme))) == Some(cards)
  {
  }
}
