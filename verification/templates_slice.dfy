/**
 The call-template slice: four built-in templates, user templates appended
 after them, and a removal guard that only lets `custom`-style templates go.
 The guard looks at the FIRST template carrying the id, but the removal that
 follows drops EVERY template carrying it, whatever its style.
 */
module TemplatesSlice {
  import opened Types
  import opened SeqOps

  datatype TemplatesState = TemplatesState(templates: seq<CallTemplate>)

  /** One constructor per action creator of the slice. */
  datatype TemplateAction =
    | Add(template: CallTemplate)
    | Update(template: CallTemplate)
    | Remove(id: string)
    | Reset

  /** The built-in templates, in the order the store starts with them. */
  function DefaultTemplates(): (r: seq<CallTemplate>)
    ensures |r| == 4
    ensures r[0].id == "ios" && r[1].id == "android" && r[2].id == "huawei" && r[3].id == "samsung"
    ensures forall i :: 0 <= i < |r| ==> StyleName(r[i].style) == r[i].id
    ensures forall i :: 0 <= i < |r| ==> r[i].style != Custom
  {
    [ CallTemplate("ios", "iPhone风格", Ios, "ios_preview.png"),
      CallTemplate("android", "Android风格", Android, "android_preview.png"),
      CallTemplate("huawei", "华为风格", Huawei, "huawei_preview.png"),
      CallTemplate("samsung", "三星风格", Samsung, "samsung_preview.png") ]
  }

  const InitialState: TemplatesState := TemplatesState(DefaultTemplates())

  /** No template in the list has the `custom` style. */
  predicate AllBuiltIn(templates: seq<CallTemplate>)
  {
    forall i :: 0 <= i < |templates| ==> templates[i].style != Custom
  }

  /** `addTemplate`: append the payload; earlier templates stay in place. */
  function AddTemplate(templates: seq<CallTemplate>, t: CallTemplate): (r: seq<CallTemplate>)
    ensures |r| == |templates| + 1
    ensures r[|templates|] == t
    ensures forall i :: 0 <= i < |templates| ==> r[i] == templates[i]
  {
    templates + [t]
  }

  /** `updateTemplate`: replace the first template whose id is the payload's id. */
  function UpdateTemplate(templates: seq<CallTemplate>, t: CallTemplate): (r: seq<CallTemplate>)
    ensures |r| == |templates|
    ensures (forall i :: 0 <= i < |templates| ==> templates[i].id != t.id) ==> r == templates
    ensures forall i :: 0 <= i < |templates| && templates[i].id == t.id
                        && (forall j :: 0 <= j < i ==> templates[j].id != t.id)
                        ==> r == templates[i := t]
  {
    ReplaceFirstBy(templates, TemplateId, t.id, t)
  }

  /**
   `removeTemplate`: a no-op unless the first template with the id is
   `custom`; then every template with that id is dropped.
   */
  function RemoveTemplate(templates: seq<CallTemplate>, id: string): (r: seq<CallTemplate>)
    ensures (forall i :: 0 <= i < |templates| ==> templates[i].id != id) ==> r == templates
    ensures forall i :: 0 <= i < |templates| && templates[i].id == id
                        && (forall j :: 0 <= j < i ==> templates[j].id != id)
                        ==> (templates[i].style != Custom ==> r == templates)
                            && (templates[i].style == Custom ==>
                                  (forall j :: 0 <= j < |r| ==> r[j].id != id)
                                  && |r| == |templates| - CountKey(templates, TemplateId, id))
  {
    match FindBy(templates, TemplateId, id)
    case Some(t) =>
      if t.style == Custom then RemoveBy(templates, TemplateId, id) else templates
    case None => templates
  }

  /** `resetTemplates`: drop every `custom` template, keep the rest. */
  function ResetTemplates(templates: seq<CallTemplate>): (r: seq<CallTemplate>)
    ensures AllBuiltIn(r)
    ensures |r| == |templates| - CountKey(templates, StyleOf, Custom)
    ensures forall i :: 0 <= i < |templates| && templates[i].style != Custom ==> templates[i] in r
    ensures forall i :: 0 <= i < |r| ==> r[i] in templates
    ensures IsSubsequence(r, templates)
  {
    RemoveByIsSubsequence(templates, StyleOf, Custom);
    RemoveBy(templates, StyleOf, Custom)
  }

  /** The slice reducer. */
  function Reduce(st: TemplatesState, a: TemplateAction): (r: TemplatesState)
    ensures a.Add? ==> |r.templates| == |st.templates| + 1
    ensures !a.Add? ==> |r.templates| <= |st.templates|
    ensures a.Update? ==> |r.templates| == |st.templates|
    ensures a.Reset? ==> AllBuiltIn(r.templates)
    ensures a.Remove? && AllBuiltIn(st.templates) ==> r == st
  {
    match a
    case Add(t) => TemplatesState(AddTemplate(st.templates, t))
    case Update(t) => TemplatesState(UpdateTemplate(st.templates, t))
    case Remove(id) => TemplatesState(RemoveTemplate(st.templates, id))
    case Reset => TemplatesState(ResetTemplates(st.templates))
  }

  /** A list without custom templates is never shrunk by `removeTemplate`. */
  lemma RemoveKeepsBuiltIns(templates: seq<CallTemplate>, id: string)
    requires AllBuiltIn(templates)
    ensures RemoveTemplate(templates, id) == templates
  {
  }

  /** In particular no id removes anything from the initial list. */
  lemma RemoveFromInitialIsNoOp(id: string)
    ensures Reduce(InitialState, Remove(id)) == InitialState
  {
    RemoveKeepsBuiltIns(DefaultTemplates(), id);
  }

  /**
   When the guard passes, the removal is the plain filter: the survivors are
   exactly the templates with another id, in their original order.
   */
  lemma {:induction false} RemovePassedGuardIsFilter(templates: seq<CallTemplate>, id: string, i: nat)
    requires i < |templates| && templates[i].id == id && templates[i].style == Custom
    requires forall j :: 0 <= j < i ==> templates[j].id != id
    ensures RemoveTemplate(templates, id) == RemoveBy(templates, TemplateId, id)
    ensures IsSubsequence(RemoveTemplate(templates, id), templates)
  {
    RemoveByIsSubsequence(templates, TemplateId, id);
  }

  /**
   Only the first match is inspected: a built-in-style template that shares
   its id with an earlier custom one is removed along with it. A witness for
   the general statement `RemovePassedGuardIsFilter`.
   */
  lemma RemoveDropsSharedIdBuiltIn()
    ensures var custom := CallTemplate("x", "mine", Custom, "x.png");
            var styled := CallTemplate("x", "copy", Ios, "ios_preview.png");
            RemoveTemplate([custom, styled], "x") == []
  {
  }

  /**
   A custom template added under an id no template has yet is removed again
   by `removeTemplate`, restoring the list.
   */
  lemma {:induction false} RemoveUndoesCustomAdd(templates: seq<CallTemplate>, t: CallTemplate)
    requires t.style == Custom
    requires forall i :: 0 <= i < |templates| ==> templates[i].id != t.id
    ensures RemoveTemplate(AddTemplate(templates, t), t.id) == templates
  {
    var added := AddTemplate(templates, t);
    assert FindIndexBy(added, TemplateId, t.id) == |templates|;
    RemoveByAppend(templates, [t], TemplateId, t.id);
    assert RemoveBy([t], TemplateId, t.id) == [];
    RemoveByAbsent(templates, TemplateId, t.id);
  }

  /** Resetting keeps the non-custom templates in order and is idempotent. */
  lemma ResetOrderedAndIdempotent(templates: seq<CallTemplate>)
    ensures IsSubsequence(ResetTemplates(templates), templates)
    ensures ResetTemplates(ResetTemplates(templates)) == ResetTemplates(templates)
  {
    RemoveByIsSubsequence(templates, StyleOf, Custom);
    RemoveByIdempotent(templates, StyleOf, Custom);
  }

  /** After a reset, no `removeTemplate` can remove anything. */
  lemma {:induction false} RemoveAfterResetIsNoOp(templates: seq<CallTemplate>, id: string)
    ensures RemoveTemplate(ResetTemplates(templates), id) == ResetTemplates(templates)
  {
    RemoveKeepsBuiltIns(ResetTemplates(templates), id);
  }

  /** Resetting the initial list leaves it as it was. */
  lemma ResetInitialIsNoOp()
    ensures Reduce(InitialState, Reset) == InitialState
  {
    RemoveByAbsent(DefaultTemplates(), StyleOf, Custom);
  }

  /** Updating with the same payload twice is updating once. */
  lemma UpdateIdempotent(templates: seq<CallTemplate>, t: CallTemplate)
    ensures UpdateTemplate(UpdateTemplate(templates, t), t) == UpdateTemplate(templates, t)
  {
    FindIndexSameKeys(templates, UpdateTemplate(templates, t), TemplateId, t.id);
  }
}
