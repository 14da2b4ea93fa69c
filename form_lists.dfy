/** The editing rules shared by the scan-configuration and organiser
    forms: checkbox lists kept in selection order, and the conversion of
    a chip's label into the value the server expects. */
module FormLists {
  import opened Text
  import opened Seqs

  /** Kotlin `MutableList.remove(element)`: the first occurrence goes, the
      rest keep their order; a missing element changes nothing. */
  function RemoveFirst(s: seq<string>, x: string): (r: seq<string>)
    ensures x !in s ==> r == s
    ensures x in s ==> |r| == |s| - 1
    ensures forall y :: y in r ==> y in s
  {
    if s == [] then []
    else if s[0] == x then s[1..]
    else [s[0]] + RemoveFirst(s[1..], x)
  }

  /** Removing one occurrence of `x` keeps every other element, in order:
      it deletes the entry at the first index holding `x`. */
  lemma {:induction false} RemoveFirstAt(s: seq<string>, x: string, i: nat)
    requires i < |s| && s[i] == x && x !in s[..i]
    ensures RemoveFirst(s, x) == s[..i] + s[i + 1..]
  {
    if i > 0 {
      assert s[0] in s[..i];
      RemoveFirstAt(s[1..], x, i - 1);
      assert s[1..][..i - 1] == s[1..i];
      assert s[1..][i..] == s[i + 1..];
      assert [s[0]] + s[1..i] == s[..i];
    }
  }

  /** A checkbox over `list`: it shows `x in list`, and its change handler
      adds `x` when it becomes checked and removes it otherwise. */
  function Toggled(list: seq<string>, x: string): seq<string> {
    if x in list then RemoveFirst(list, x) else list + [x]
  }

  /** In a list without repeats, a click on a box flips exactly that
      item, keeps the list free of repeats, and never reorders the rest:
      an unchecked item goes to the end, a checked one is cut out where it
      stood. */
  lemma ToggledSpec(list: seq<string>, x: string)
    requires NoDuplicates(list)
    ensures NoDuplicates(Toggled(list, x))
    ensures x in Toggled(list, x) <==> x !in list
    ensures forall y :: y != x ==> (y in Toggled(list, x) <==> y in list)
    ensures x !in list ==> Toggled(list, x) == list + [x]
    ensures x in list ==> exists i :: 0 <= i < |list| && list[i] == x && Toggled(list, x) == list[..i] + list[i + 1..]
  {
    if x in list {
      var i :| 0 <= i < |list| && list[i] == x;
      assert x !in list[..i];
      RemoveFirstAt(list, x, i);
      DeleteAt(list, i);
    } else {
      var r := list + [x];
      assert forall y :: y in r <==> y in list || y == x;
    }
  }

  /** Cutting entry `i` out of a list without repeats removes exactly that
      value and keeps the list free of repeats. */
  lemma DeleteAt(list: seq<string>, i: nat)
    requires NoDuplicates(list) && i < |list|
    ensures NoDuplicates(list[..i] + list[i + 1..])
    ensures forall y :: y in list[..i] + list[i + 1..] <==> y in list && y != list[i]
  {
    var r := list[..i] + list[i + 1..];
    assert forall k :: 0 <= k < |r| ==> r[k] == list[if k < i then k else k + 1];
    forall y | y in list && y != list[i] ensures y in r {
      var j :| 0 <= j < |list| && list[j] == y;
      if j < i { assert r[j] == y; } else { assert r[j - 1] == y; }
    }
  }

  /** Two clicks on a box that was clear restore the list. */
  lemma ToggleTwiceRestores(list: seq<string>, x: string)
    requires x !in list
    ensures Toggled(Toggled(list, x), x) == list
  {
    assert (list + [x])[|list|] == x;
    assert (list + [x])[..|list|] == list;
    RemoveFirstAt(list + [x], x, |list|);
  }

  /** Kotlin `map { it.lowercase() }`. */
  function LowerAll(items: seq<string>): (r: seq<string>)
    ensures |r| == |items|
    ensures forall i :: 0 <= i < |items| ==> r[i] == Lower(items[i])
  {
    seq(|items|, i requires 0 <= i < |items| => Lower(items[i]))
  }

  /** `lowercase().replace(" ", "_")`: a chip's label as sent to the
      server. */
  function RequestLabel(text: string): string {
    ReplaceAll(Lower(text), " ", "_")
  }

  /** Character by character, a request label is the lower-cased label
      with each space turned into an underscore. */
  lemma RequestLabelSpec(text: string)
    ensures |RequestLabel(text)| == |text|
    ensures forall i :: 0 <= i < |text| ==>
      RequestLabel(text)[i] == if text[i] == ' ' then '_' else LowerChar(text[i])
    ensures forall i :: 0 <= i < |text| ==>
      RequestLabel(text)[i] != ' ' && !IsUpperAscii(RequestLabel(text)[i])
  {
    ReplaceCharIsMap(Lower(text), ' ', '_');
  }

  /** The organise mode "File Type" is sent as "file_type". */
  lemma FileTypeLabel()
    ensures RequestLabel("File Type") == "file_type"
  {
    RequestLabelSpec("File Type");
  }
}
