/**
 * The vocabulary of the REST transport layer: query items, the errors a
 * transport can report, the single-shot result of a GET, and the function
 * shape of the transport's `get` operation.
 */
module Transport {

  /** A query item `name=value`, as passed to a transport (Foundation's URLQueryItem). */
  datatype QueryItem = QueryItem(name: string, value: string)

  /**
   * The failures a transport reports: a network failure (connectivity,
   * timeout, cancellation) or a body that does not decode into the
   * requested type.
   */
  datatype Error =
    | NetworkError(code: int)
    | DecodingError(message: string)

  /** The one value a GET publishes: a decoded body or an error, never both. */
  datatype Result<+T> = Success(body: T) | Failure(error: Error)

  /**
   * The transport's `get(path:parameters:)` seen at one response type `T`.
   * It is left uninterpreted: every model of a transport is a function of
   * this shape.
   */
  type Get<T> = (string, seq<QueryItem>) -> Result<T>

  /** The values carried by the items named `name`, in the order the items appear. */
  function Values(items: seq<QueryItem>, name: string): (vs: seq<string>)
    ensures |vs| <= |items|
  {
    if items == [] then []
    else if items[0].name == name then [items[0].value] + Values(items[1..], name)
    else Values(items[1..], name)
  }

  /** A value is among those of `name` exactly when the item `name=value` is in the list. */
  lemma {:induction false} ValuesContains(items: seq<QueryItem>, name: string, value: string)
    ensures value in Values(items, name) <==> QueryItem(name, value) in items
  {
    if items != [] {
      ValuesContains(items[1..], name, value);
      assert items == [items[0]] + items[1..];
    }
  }

  /** Looking names up in two lists one after the other is looking them up in their concatenation. */
  lemma {:induction false} ValuesAppend(a: seq<QueryItem>, b: seq<QueryItem>, name: string)
    ensures Values(a + b, name) == Values(a, name) + Values(b, name)
  {
    if a == [] {
      assert a + b == b;
    } else {
      assert (a + b)[0] == a[0] && (a + b)[1..] == a[1..] + b;
      ValuesAppend(a[1..], b, name);
      if a[0].name == name {
        assert Values(a + b, name) == [a[0].value] + (Values(a[1..], name) + Values(b, name));
      }
    }
  }

  lemma ValuesOfOne(x: QueryItem, name: string)
    ensures Values([x], name) == if x.name == name then [x.value] else []
  {
    assert [x][1..] == [];
  }

  /** The values of a list written out item by item are those of its items in turn. */
  lemma ValuesOfThree(x: QueryItem, y: QueryItem, z: QueryItem, name: string)
    ensures Values([x, y, z], name) == Values([x], name) + Values([y], name) + Values([z], name)
  {
    assert [x, y, z] == [x, y] + [z];
    assert [x, y] == [x] + [y];
    ValuesAppend([x, y], [z], name);
    ValuesAppend([x], [y], name);
  }

  lemma ValuesAppendAll(a: seq<QueryItem>, b: seq<QueryItem>)
    ensures forall name :: Values(a + b, name) == Values(a, name) + Values(b, name)
  {
    forall name ensures Values(a + b, name) == Values(a, name) + Values(b, name) {
      ValuesAppend(a, b, name);
    }
  }

}
