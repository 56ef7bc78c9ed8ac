/** Options, and lists with an entry put in or taken out. */
module ListOps {

  datatype Option<+T> = None | Some(value: T)

  function InsertAt<T>(list: seq<T>, k: nat, x: T): seq<T>
    requires k <= |list|
  {
    list[..k] + [x] + list[k..]
  }

  function RemoveAt<T>(list: seq<T>, k: nat): seq<T>
    requires k < |list|
  {
    list[..k] + list[k + 1..]
  }
}
