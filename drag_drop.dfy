/** The drag payload that travels from a project item (the drag source) to a
    project list (the drop target): the browser's `DataTransfer`, as
    src/app.ts:262-263 writes it and src/app.ts:316 and 325 read it. Only what
    the handlers touch is modelled: the ordered (format, data) items, the format list
    `types`, `setData`, `getData` and `effectAllowed`. */
module DragDrop {

  datatype DataTransfer = DataTransfer(items: seq<(string, string)>, effectAllowed: string)

  /** The one format the components use. */
  const PlainText: string := "text/plain"

  /** `types`: the formats of the items, in the order they were set. */
  function Types(transfer: DataTransfer): seq<string> {
    seq(|transfer.items|, k requires 0 <= k < |transfer.items| => transfer.items[k].0)
  }

  /** The data of the first item with `format`, or "" when there is none. */
  function Lookup(items: seq<(string, string)>, format: string): string {
    if items == [] then ""
    else if items[0].0 == format then items[0].1
    else Lookup(items[1..], format)
  }

  /** The items without those of `format`. */
  function Without(items: seq<(string, string)>, format: string): seq<(string, string)> {
    if items == [] then []
    else (if items[0].0 == format then [] else [items[0]]) + Without(items[1..], format)
  }

  /** `getData(format)`. */
  function GetData(transfer: DataTransfer, format: string): string {
    Lookup(transfer.items, format)
  }

  /** `setData(format, data)`: the item of that format, if any, is removed and
      the new item is added last. */
  function SetData(transfer: DataTransfer, format: string, data: string): DataTransfer {
    transfer.(items := Without(transfer.items, format) + [(format, data)])
  }

  /** Removing the items of `format` leaves no item of that format. */
  lemma {:induction false} WithoutRemoves(items: seq<(string, string)>, format: string)
    ensures forall k :: 0 <= k < |Without(items, format)| ==> Without(items, format)[k].0 != format
  {
    if items != [] {
      WithoutRemoves(items[1..], format);
    }
  }

  /** Removing the items of `format` leaves every other format readable as before. */
  lemma {:induction false} LookupWithout(items: seq<(string, string)>, format: string, other: string)
    requires other != format
    ensures Lookup(Without(items, format), other) == Lookup(items, other)
  {
    if items != [] {
      var tail := Without(items[1..], format);
      if items[0].0 == format {
        assert Without(items, format) == tail;
      } else {
        assert Without(items, format) == [items[0]] + tail;
        assert ([items[0]] + tail)[1..] == tail;
      }
      LookupWithout(items[1..], format, other);
    }
  }

  /** A lookup that finds nothing of its format in a prefix continues in the rest. */
  lemma {:induction false} LookupSkips(prefix: seq<(string, string)>, rest: seq<(string, string)>, format: string)
    requires forall k :: 0 <= k < |prefix| ==> prefix[k].0 != format
    ensures Lookup(prefix + rest, format) == Lookup(rest, format)
  {
    if prefix != [] {
      assert (prefix + rest)[1..] == prefix[1..] + rest;
      assert forall k :: 0 <= k < |prefix[1..]| ==> prefix[1..][k] == prefix[k + 1];
      LookupSkips(prefix[1..], rest, format);
    } else {
      assert prefix + rest == rest;
    }
  }

  /** An item of another format added last does not change a lookup. */
  lemma {:induction false} LookupAppendOther(items: seq<(string, string)>, item: (string, string), format: string)
    requires item.0 != format
    ensures Lookup(items + [item], format) == Lookup(items, format)
  {
    if items != [] {
      assert (items + [item])[1..] == items[1..] + [item];
      LookupAppendOther(items[1..], item, format);
    }
  }

  /** `getData` returns what `setData` stored under the same format and is
      unaffected by `setData` under another format. */
  lemma GetDataAfterSetData(transfer: DataTransfer, format: string, data: string, other: string)
    ensures GetData(SetData(transfer, format, data), other) ==
      if other == format then data else GetData(transfer, other)
  {
    var kept := Without(transfer.items, format);
    if other == format {
      WithoutRemoves(transfer.items, format);
      LookupSkips(kept, [(format, data)], format);
    } else {
      LookupWithout(transfer.items, format, other);
      LookupAppendOther(kept, (format, data), other);
    }
  }
}
