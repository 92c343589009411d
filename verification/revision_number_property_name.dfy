/** The property-name getter for the revision number (RevisionNumberPropertyName.java). */
module RevisionNumberPropertyName {
  import opened EnversConfiguration

  /** `get`: the configuration's revision number path, read without keeping any state.
      It is the revision-entity path of `id`: it starts with the original-id property
      name followed by a dot and ends with `.id`. */
  function Get(c: Configuration): (path: string)
    requires c.Valid()
    ensures path == c.revisionNumberPath
    ensures path == c.GetRevisionPropertyPath("id")
    ensures |path| >= |c.originalIdPropertyName| + 4
    ensures path[..|c.originalIdPropertyName| + 1] == c.originalIdPropertyName + "."
    ensures path[|path| - 3..] == ".id"
  {
    RevisionNumberPathIsIdPath(c);
    c.revisionNumberPath
  }

  /** Under the default names the revision number path is `originalId.REV.id`. */
  lemma DefaultRevisionNumberPath(c: Configuration)
    requires c.BuiltFrom(Unset)
    ensures Get(c) == "originalId.REV.id"
  {
  }
}
