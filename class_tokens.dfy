/**
 * The plugin's cross-browser class helpers (`TenUp.hasClass`, `TenUp.addClass`,
 * `TenUp.removeClass`). An element's `className` is modelled as its sequence of
 * whitespace-separated tokens, in order and with any repetitions the markup has.
 *
 * Both branches of the source are modelled, chosen by `classListApi`:
 * - with `el.classList` (a DOMTokenList), the token list is re-serialised as an
 *   ordered set, so repetitions disappear on every add or remove;
 * - without it, `addClass` appends ` cls` unless the class is already there, and
 *   `removeClass` replaces the first regex match, which removes the first occurrence only.
 */
module ClassTokens {
  import opened Seqs

  /** `TenUp.hasClass`: the class string is non-empty and holds `cls` as a whole token. */
  predicate HasClass(classes: seq<string>, cls: string)
  {
    cls in classes
  }

  /** `TenUp.addClass`: the token list after adding `cls`. */
  function AddClass(classes: seq<string>, cls: string, classListApi: bool): (r: seq<string>)
    ensures HasClass(r, cls)
    ensures forall x :: x in r <==> x in classes || x == cls
    ensures Count(r, cls) == if classListApi || cls !in classes then 1 else Count(classes, cls)
    ensures NoDup(classes) ==> r == if cls in classes then classes else classes + [cls]
  {
    if classListApi then
      var d := Dedup(classes);
      CountNoDup(d, cls);
      DedupNoDup(classes);
      if cls in d then d else (CountAppend(d, cls, cls); d + [cls])
    else if HasClass(classes, cls) then classes
    else
      CountAppend(classes, cls, cls);
      classes + [cls]
  }

  /** `TenUp.removeClass`: the token list after removing `cls`. */
  function RemoveClass(classes: seq<string>, cls: string, classListApi: bool): (r: seq<string>)
    ensures forall x :: x != cls ==> (x in r <==> x in classes)
    ensures classListApi || Count(classes, cls) <= 1 ==> !HasClass(r, cls)
    ensures !classListApi ==> Count(r, cls) == if cls in classes then Count(classes, cls) - 1 else 0
    ensures !classListApi && cls !in classes ==> r == classes
  {
    if classListApi then Without(Dedup(classes), cls)
    else if HasClass(classes, cls) then RemoveFirst(classes, cls)
    else classes
  }

  /**
   * Removing a class that occurs once leaves every other token where it was (for the
   * classList branch: once the list is duplicate-free, as that branch re-serialises it).
   */
  lemma RemoveSingleLeavesOthers(classes: seq<string>, cls: string, classListApi: bool)
    requires Count(classes, cls) == 1
    requires classListApi ==> NoDup(classes)
    ensures RemoveClass(classes, cls, classListApi) == Without(classes, cls)
  {
    if classListApi {
      DedupNoDup(classes);
    } else {
      RemoveFirstSingle(classes, cls);
    }
  }

  /**
   * Adding a class that was absent and then removing it restores the token list (for the
   * classList branch: once the list is duplicate-free, as that branch re-serialises it).
   */
  lemma AddRemoveRoundTrip(classes: seq<string>, cls: string, classListApi: bool)
    requires cls !in classes
    requires classListApi ==> NoDup(classes)
    ensures RemoveClass(AddClass(classes, cls, classListApi), cls, classListApi) == classes
  {
    var added := AddClass(classes, cls, classListApi);
    assert added == classes + [cls];
    CountAppend(classes, cls, cls);
    WithoutAppended(classes, cls);
    if classListApi {
      AppendNoDup(classes, cls);
      DedupNoDup(added);
    } else {
      RemoveFirstSingle(added, cls);
    }
  }

}
