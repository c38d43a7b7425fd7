/** Identifiers, failure-carrying datatypes and a sequence predicate shared by the modules of the model. */
module Common {

  /** An opaque identifier, name or digest: only equality matters. */
  datatype Id = Id(text: string)

  datatype Option<+T> = None | Some(value: T)

  datatype Result<+T, +E> = Ok(value: T) | Err(error: E)

  ghost predicate NoRepeats<T>(s: seq<T>) {
    forall i, j | 0 <= i < j < |s| :: s[i] != s[j]
  }

  /** A number above all of `s`, so one that is not in it. */
  ghost function Above(s: set<nat>): (b: nat)
    ensures forall x | x in s :: x < b
  {
    if s == {} then 0 else
      var x :| x in s;
      var b := Above(s - {x});
      assert s == (s - {x}) + {x};
      if x < b then b else x + 1
  }

  /** An identifier longer than all of `ids`, so one that is not among them. */
  ghost function Unheard(ids: set<Id>): (id: Id)
    ensures id !in ids
  {
    var lengths := set i | i in ids :: |i.text|;
    var id := Id(seq(Above(lengths), _ => 'x'));
    assert id in ids ==> |id.text| in lengths;
    id
  }
}
