/**
 * The reply shape of the translation provider, `{ translations: [ { translated:
 * [string, ...] }, ... ] }`, and the optional-chain path that both the proxy
 * and the page use to read a result out of a JSON value.
 */
module Provider {
  import opened Js

  /** `v?.translations?.[0]?.translated?.[0]`. */
  function FirstTranslated(v: Json): (r: Json)
    ensures Nullish(v) ==> r == Undefined
    ensures !Nullish(v) && Nullish(Get(v, "translations").value) ==> r == Undefined
  {
    OptGet(OptGet(OptGet(OptGet(v, "translations"), "0"), "translated"), "0")
  }

  /**
   * Whenever `translations` is a non-empty array whose first entry has a
   * non-empty `translated` array, the path yields the first string of the
   * first entry: later entries, later strings and other fields, wherever they
   * are listed, change nothing.
   */
  lemma FirstOfFirstOnly(v: Json, entries: seq<Json>, strings: seq<Json>)
    requires Get(v, "translations") == Normal(Arr(entries)) && entries != []
    requires Get(entries[0], "translated") == Normal(Arr(strings)) && strings != []
    ensures FirstTranslated(v) == strings[0]
  {
    CanonicalIndexOfDecimal(0);
  }

  /** An object without a `translations` field yields nothing along the path. */
  lemma NoTranslationsField(v: Json)
    requires v.Obj? && forall i | 0 <= i < |v.fields| :: v.fields[i].key != "translations"
    ensures FirstTranslated(v) == Undefined
  {
  }
}
