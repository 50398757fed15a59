/**
 * Which importer `get_record_importer` asks the connector environment for:
 * the default `Importer` unit, or the class at a dotted path under the
 * `odoo.addons.` namespace.
 */
module ImporterPaths {
  import opened Wrappers

  const AddonsPrefix: string := "odoo.addons."

  datatype ImporterRef =
    | DefaultImporter
    | ImporterAt(dottedPath: string)

  /** A dotted path placed under `odoo.addons.`, unless it already is. */
  function Normalized(path: string): (r: string)
    ensures AddonsPrefix <= r
    ensures AddonsPrefix <= path ==> r == path
    ensures !(AddonsPrefix <= path) ==> r == AddonsPrefix + path && r[|AddonsPrefix|..] == path
  {
    if AddonsPrefix <= path then path else AddonsPrefix + path
  }

  /** Normalising twice is normalising once. */
  lemma NormalizedIdempotent(path: string)
    ensures Normalized(Normalized(path)) == Normalized(path)
  {
  }

  /** No path is lost: two paths with the same normalised form differ at most by the prefix. */
  lemma NormalizedLosesOnlyPrefix(p: string, q: string)
    requires Normalized(p) == Normalized(q)
    ensures p == q || p == AddonsPrefix + q || q == AddonsPrefix + p
  {
  }

  /** No path asks for the default importer; a path asks for the class at its normalised form. */
  function RecordImporter(dottedPath: Option<string>): (r: ImporterRef)
    ensures dottedPath.None? <==> r.DefaultImporter?
    ensures dottedPath.Some? ==> r == ImporterAt(Normalized(dottedPath.value))
  {
    match dottedPath
    case None => DefaultImporter
    case Some(path) => ImporterAt(Normalized(path))
  }
}
