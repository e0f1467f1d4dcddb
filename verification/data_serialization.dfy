/** The backend-agnostic transport container of data_lib: an ordered,
    read-only sequence of strings. */
module DataSerialization {

  /** A "package" of string entries. Its one field is only read, never
      updated, so the container is immutable once built. */
  datatype Consumable = Consumable(data: seq<string>) {

    /** Read-only view of the entries, in the order they were given. */
    function GetData(): (entries: seq<string>)
    {
      data
    }
  }

  /** `Consumable::new`: wraps the dataset without copying, validating or
      reordering it. */
  function New(dataset: seq<string>): (c: Consumable)
    ensures c.GetData() == dataset
  {
    Consumable(dataset)
  }
}
