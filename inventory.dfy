/**
 * The documents of the inventory container as the handlers read them. Every
 * key of a document or an item may be absent; an absent key is `None`.
 */
module Inventory {
  import opened Wrappers

  /** The value stored under an item's `Case Price` key. */
  datatype CasePrice =
    | NoPrice               // the key is absent (read as 0)
    | Numeric(value: real)  // an int or a float
    | NonNumeric            // any other JSON value, such as the string "N/A"

  /** One line of an inventory batch, by the keys the handlers read. */
  datatype Item = Item(
    inventoryItemName: Option<string>,  // "Inventory Item Name"
    itemName: Option<string>,           // "Item Name"
    category: Option<string>,           // "Category"
    itemNumber: Option<string>,         // "Item Number"
    supplierName: Option<string>,       // "Supplier Name"
    measuredIn: Option<string>,         // "Measured In"
    unitOfMeasure: Option<string>,      // "Inventory Unit of Measure"
    casePrice: CasePrice)               // "Case Price"

  /** One inventory batch. An absent `items` key reads as the empty list. */
  datatype Document = Document(
    id: Option<string>,
    userId: Option<string>,
    supplierName: Option<string>,  // "supplier_name"
    timestamp: Option<string>,
    batchNumber: Option<string>,
    items: seq<Item>)

  /** A text field read with `get(key, '')`. */
  function TextOf(field: Option<string>): string {
    field.GetOr("")
  }

  /** All items of all documents, document after document. */
  function AllItems(docs: seq<Document>): seq<Item> {
    if docs == [] then [] else AllItems(docs[..|docs| - 1]) + docs[|docs| - 1].items
  }

  /** The sum over the documents of the length of their item lists. */
  function TotalItems(docs: seq<Document>): nat {
    if docs == [] then 0 else TotalItems(docs[..|docs| - 1]) + |docs[|docs| - 1].items|
  }

  /** Flattening the item lists keeps every item and adds none. */
  lemma {:induction false} AllItemsLength(docs: seq<Document>)
    ensures |AllItems(docs)| == TotalItems(docs)
  {
    if docs != [] {
      AllItemsLength(docs[..|docs| - 1]);
    }
  }
}
