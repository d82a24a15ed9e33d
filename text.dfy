/** Python's `str.join` on sequences of strings, with the facts the other
    modules need about it. */
module Text {

  /** `sep.join(parts)`: the parts in order, with `sep` between neighbours. */
  function Join(parts: seq<string>, sep: string): string
  {
    if |parts| == 0 then ""
    else if |parts| == 1 then parts[0]
    else parts[0] + sep + Join(parts[1..], sep)
  }

  /** Adding one more part adds exactly one separator and that part at the end. */
  lemma {:induction false} JoinAppend(parts: seq<string>, p: string, sep: string)
    requires parts != []
    ensures Join(parts + [p], sep) == Join(parts, sep) + sep + p
  {
    if |parts| == 1 {
      assert (parts + [p])[1..] == [p];
    } else {
      assert (parts + [p])[1..] == parts[1..] + [p];
      JoinAppend(parts[1..], p, sep);
    }
  }

  /** The joined text of a non-empty list, followed by one separator, is kept
      verbatim at the start of the joined text of any longer list. */
  lemma {:induction false} JoinExtends(parts: seq<string>, more: seq<string>, sep: string)
    requires parts != [] && more != []
    ensures Join(parts, sep) + sep <= Join(parts + more, sep)
  {
    var last := more[|more| - 1];
    var init := more[..|more| - 1];
    assert parts + more == (parts + init) + [last];
    JoinAppend(parts + init, last, sep);
    if init != [] {
      JoinExtends(parts, init, sep);
    } else {
      assert parts + init == parts;
    }
  }
}
