/** `java.util.List<String>` as the dialect uses it: an ordered list that is only appended to. */
module JavaUtil {

  class StringList {
    var items: seq<string>

    constructor ()
      ensures items == []
    {
      items := [];
    }

    method Add(s: string)
      modifies this
      ensures items == old(items) + [s]
    {
      items := items + [s];
    }

    method AddAll(ss: seq<string>)
      modifies this
      ensures items == old(items) + ss
    {
      items := items + ss;
    }
  }
}
