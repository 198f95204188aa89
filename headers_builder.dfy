/** request/builder/HeadersBuilder.kt: the receiver of a `headers { }` block.
    Both `"Name" to "value"` and `"Name"("value")` write one entry into an
    insertion-ordered map, so a later write of the same name wins. */
module HeaderDsl {
  import opened Base
  import opened LinkedMaps

  /** One statement of a `headers { }` block. */
  datatype HeaderCall = To(name: string, value: string) | Invoke(name: string, value: string) {
    function Entry(): (string, string) {
      (name, value)
    }
  }

  /** The entries a block writes, in the order it writes them. */
  function Entries(block: seq<HeaderCall>): (es: LinkedMap<string, string>)
    ensures |es| == |block| && forall i :: 0 <= i < |block| ==> es[i] == block[i].Entry()
  {
    seq(|block|, i requires 0 <= i < |block| => block[i].Entry())
  }

  class HeadersBuilder {
    var headers: LinkedMap<string, string>

    ghost predicate Valid()
      reads this
    {
      Distinct(headers)
    }

    constructor ()
      ensures Valid() && headers == []
    {
      headers := [];
    }

    /** `infix fun String.to(value)`. */
    method To(name: string, value: string)
      requires Valid()
      modifies this
      ensures Valid() && headers == Put(old(headers), name, value)
    {
      headers := Put(headers, name, value);
    }

    /** `operator fun String.invoke(value)`: the same write as `to`. */
    method Invoke(name: string, value: string)
      requires Valid()
      modifies this
      ensures Valid() && headers == Put(old(headers), name, value)
    {
      headers := Put(headers, name, value);
    }
  }

  /** `HeadersBuilder().apply(block).headers`: the map a block produces is
      what writing its entries one by one into an empty map gives. */
  method Run(block: seq<HeaderCall>) returns (headers: LinkedMap<string, string>)
    ensures Distinct(headers)
    ensures headers == PutAll([], Entries(block))
  {
    var b := new HeadersBuilder();
    for i := 0 to |block|
      invariant b.Valid()
      invariant b.headers == PutAll([], Entries(block[..i]))
    {
      assert Entries(block[..i + 1]) == Entries(block[..i]) + [block[i].Entry()];
      PutAllSnoc([], Entries(block[..i]), block[i].name, block[i].value);
      match block[i]
      case To(n, v) => b.To(n, v);
      case Invoke(n, v) => b.Invoke(n, v);
    }
    assert block[..|block|] == block;
    headers := b.headers;
  }

  /** The value of the last statement of a block that writes `name`. */
  function LastWrite(block: seq<HeaderCall>, name: string): (r: Option<string>)
    ensures r.None? <==> forall i :: 0 <= i < |block| ==> block[i].name != name
    decreases |block|
  {
    if block == [] then None
    else if block[|block| - 1].name == name then Some(block[|block| - 1].value)
    else
      var init := block[..|block| - 1];
      assert forall i :: 0 <= i < |init| ==> init[i] == block[i];
      LastWrite(init, name)
  }

  /** The value found is written by a statement that no later statement
      for the same name follows. */
  lemma {:induction false} LastWriteIsLast(block: seq<HeaderCall>, name: string)
    requires LastWrite(block, name).Some?
    ensures exists i :: (0 <= i < |block| && block[i].Entry() == (name, LastWrite(block, name).value) &&
                         (forall j :: i < j < |block| ==> block[j].name != name))
    decreases |block|
  {
    var n := |block| - 1;
    if block[n].name == name {
      assert block[n].Entry() == (name, LastWrite(block, name).value);
    } else {
      var init := block[..n];
      LastWriteIsLast(init, name);
      var i :| (0 <= i < |init| && init[i].Entry() == (name, LastWrite(init, name).value) &&
                (forall j :: i < j < |init| ==> init[j].name != name));
      assert block[i] == init[i];
      assert forall j :: i < j < |block| ==> block[j].name != name by {
        forall j | i < j < |block| ensures block[j].name != name {
          if j < n { assert block[j] == init[j]; }
        }
      }
    }
  }

  /** Running a block leaves, for each name, the value of its last write, and
      no entry for a name the block does not write. */
  lemma {:induction false} RunLastWriteWins(block: seq<HeaderCall>, name: string)
    ensures Get(PutAll([], Entries(block)), name) == LastWrite(block, name)
    decreases |block|
  {
    if block != [] {
      var init := block[..|block| - 1];
      var last := block[|block| - 1];
      assert Entries(block) == Entries(init) + [last.Entry()];
      PutAllSnoc([], Entries(init), last.name, last.value);
      RunLastWriteWins(init, name);
    }
  }
}
