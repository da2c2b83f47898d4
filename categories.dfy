/** Categories, which may sit under a parent category, and the names they display. */
module Categories {
  import opened Wrappers

  /** A category and, for a subcategory, its parent record. */
  datatype Category = Category(name: string, parent: Option<Category>)

  /** `Category.is_subcategory`. */
  predicate IsSubcategory(c: Category) {
    c.parent.Some?
  }

  const SEPARATOR := " > "

  /** `Category.full_path`; a model instance is always truthy, so any parent counts. */
  function FullPath(c: Category): string {
    if c.parent.Some? then c.parent.value.name + SEPARATOR + c.name else c.name
  }

  /** `Category.__str__`, written out separately in the model class. */
  function Display(c: Category): string {
    if c.parent.Some? then c.parent.value.name + SEPARATOR + c.name else c.name
  }

  /**
   * A top-level category's path is its name; a subcategory's is its parent's name, the
   * separator and its own name, and exactly subcategories are marked as such.
   */
  lemma FullPathCases(c: Category)
    ensures IsSubcategory(c) <==> c.parent != None
    ensures !IsSubcategory(c) ==> FullPath(c) == c.name
    ensures IsSubcategory(c) ==> FullPath(c) == c.parent.value.name + " > " + c.name
  {
  }

  /** Only the immediate parent's name is used: moving the parent elsewhere changes nothing. */
  lemma FullPathIgnoresGrandparent(c: Category, grandparent: Option<Category>)
    requires IsSubcategory(c)
    ensures FullPath(c.(parent := Some(c.parent.value.(parent := grandparent)))) == FullPath(c)
  {
  }

  /** A path ends in the category's own name, after the parent's name and the separator. */
  lemma FullPathEndsWithName(c: Category)
    ensures |FullPath(c)| >= |c.name|
    ensures FullPath(c)[|FullPath(c)| - |c.name|..] == c.name
    ensures IsSubcategory(c) ==> FullPath(c)[..|c.parent.value.name| + 3] == c.parent.value.name + SEPARATOR
  {
    if IsSubcategory(c) {
      var head := c.parent.value.name + SEPARATOR;
      assert FullPath(c) == head + c.name;
      assert (head + c.name)[|head|..] == c.name;
      assert (head + c.name)[..|head|] == head;
    }
  }

  /** The string form of a category is always its full path. */
  lemma DisplayIsFullPath(c: Category)
    ensures Display(c) == FullPath(c)
  {
  }
}
