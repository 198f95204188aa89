/** request/builder/QueryParamsBuilder.kt: the receiver of a `queryParams { }`
    block. Both `"name" to "value"` and `"name"("value")` append one pair to a
    list, so order is kept and a repeated name gives two parameters. */
module QueryDsl {

  type Param = (string, string)

  /** One statement of a `queryParams { }` block. */
  datatype ParamCall = To(name: string, value: string) | Invoke(name: string, value: string) {
    function Pair(): Param {
      (name, value)
    }
  }

  class QueryParamsBuilder {
    var params: seq<Param>

    constructor ()
      ensures params == []
    {
      params := [];
    }

    /** `infix fun String.to(value)`. */
    method To(name: string, value: string)
      modifies this
      ensures params == old(params) + [(name, value)]
    {
      params := params + [(name, value)];
    }

    /** `operator fun String.invoke(value)`: the same append as `to`. */
    method Invoke(name: string, value: string)
      modifies this
      ensures params == old(params) + [(name, value)]
    {
      params := params + [(name, value)];
    }
  }

  /** `QueryParamsBuilder().apply(block).params`: one pair per statement, in
      the order of the statements, duplicates included. */
  method Run(block: seq<ParamCall>) returns (params: seq<Param>)
    ensures |params| == |block|
    ensures forall i :: 0 <= i < |block| ==> params[i] == block[i].Pair()
  {
    var b := new QueryParamsBuilder();
    for i := 0 to |block|
      invariant |b.params| == i
      invariant forall j :: 0 <= j < i ==> b.params[j] == block[j].Pair()
    {
      match block[i]
      case To(n, v) => b.To(n, v);
      case Invoke(n, v) => b.Invoke(n, v);
    }
    params := b.params;
  }
}
