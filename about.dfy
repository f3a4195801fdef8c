/** The about page's anchor ids, made from section titles. */
module About {
  import opened Text

  /** `makeId`: the title lower-cased with every space turned into `-`. */
  function MakeId(title: string): (id: string)
    ensures |id| == |title|
    ensures forall i :: 0 <= i < |title| ==> id[i] == if title[i] == ' ' then '-' else LowerChar(title[i])
  {
    ReplaceChar(Lower(title), ' ', '-')
  }

  /** An id holds no space and no upper-case letter, and making an id of
      an id changes nothing. */
  lemma MakeIdIsSlug(title: string)
    ensures forall i :: 0 <= i < |MakeId(title)| ==> MakeId(title)[i] != ' ' && !IsUpper(MakeId(title)[i])
    ensures MakeId(MakeId(title)) == MakeId(title)
  {
    var id := MakeId(title);
    var again := MakeId(id);
    forall i | 0 <= i < |id|
      ensures again[i] == id[i]
    {
      assert id[i] != ' ';
    }
    assert again == id;
  }

  /** Characters other than spaces and upper-case letters are kept in place. */
  lemma MakeIdKeeps(title: string, i: nat)
    requires i < |title| && title[i] != ' ' && !IsUpper(title[i])
    ensures MakeId(title)[i] == title[i]
  {
  }

  /** For example, "Getting Started" gets the id "getting-started". */
  lemma MakeIdExample()
    ensures MakeId("Getting Started") == "getting-started"
  {
    var id := MakeId("Getting Started");
    assert id[0] == LowerChar('G') == 'g' && id[7] == '-' && id[8] == LowerChar('S') == 's';
    assert id == "getting-started";
  }
}
