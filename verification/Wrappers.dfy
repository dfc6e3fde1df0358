/** The optional value the tables use for nullable columns, and looking a row up by its key. */
module Wrappers {

  datatype Option<+T> = None | Some(value: T) {

    function GetOr(default: T): T {
      match this
      case Some(v) => v
      case None => default
    }
  }

  /** The first position of a key. */
  function IndexOf(keys: seq<string>, key: string): (index: Option<nat>)
    ensures index.Some? ==> index.value < |keys| && keys[index.value] == key
    ensures index.Some? ==> forall i :: 0 <= i < index.value ==> keys[i] != key
    ensures index.None? ==> forall i :: 0 <= i < |keys| ==> keys[i] != key
  {
    if keys == [] then None
    else if keys[0] == key then Some(0)
    else
      var rest := IndexOf(keys[1..], key);
      assert forall i :: 1 <= i < |keys| ==> keys[i] == keys[1..][i - 1];
      if rest.Some? then Some(rest.value + 1) else None
  }
}
