/**
 * The generation workbench: the selection of reference items, the template
 * registry and its structure editor, and the assembly of the generation request.
 */
module Workbench {
  import opened Types
  import opened Sequences
  import opened GeminiService
  import Constants

  // ---------------------------------------------------------------------------
  // Selection of reference items
  // ---------------------------------------------------------------------------

  /** Some selected entry has id `id` (the truthiness of `prev.find(f => f.id === id)`). */
  predicate IsSelected(sel: seq<KnowledgeItem>, id: string)
  {
    exists f :: f in sel && f.id == id
  }

  /** The filter predicate "has an id other than `id`". */
  function OtherId(id: string): KnowledgeItem -> bool
  {
    (f: KnowledgeItem) => f.id != id
  }

  /**
   * `toggleFileSelection`: an item whose id is selected is removed (every entry
   * with that id); any other item is appended at the end.
   */
  function Toggle(sel: seq<KnowledgeItem>, item: KnowledgeItem): (r: seq<KnowledgeItem>)
    ensures !IsSelected(sel, item.id) ==> r == sel + [item] && |r| == |sel| + 1
    ensures IsSelected(sel, item.id) ==> !IsSelected(r, item.id)
    ensures IsSelected(sel, item.id) ==> forall x :: x in r <==> x in sel && x.id != item.id
  {
    if IsSelected(sel, item.id) then Keep(sel, OtherId(item.id)) else sel + [item]
  }

  /** Removing by toggling keeps the remaining entries in their original order. */
  lemma ToggleOffKeepsOrder(sel: seq<KnowledgeItem>, item: KnowledgeItem)
    requires IsSelected(sel, item.id)
    ensures IsSubsequence(Toggle(sel, item), sel)
  {
    KeepIsSubsequence(sel, OtherId(item.id));
  }

  /** Filtering a list with distinct ids keeps the ids distinct. */
  lemma {:induction false} KeepUniqueIds(s: seq<KnowledgeItem>, p: KnowledgeItem -> bool)
    requires UniqueIds(s)
    ensures UniqueIds(Keep(s, p))
  {
    if s != [] {
      var tail := s[1..];
      assert UniqueIds(tail) by {
        forall i, j | 0 <= i < |tail| && 0 <= j < |tail| && tail[i].id == tail[j].id ensures i == j {
          assert s[i + 1].id == s[j + 1].id;
        }
      }
      KeepUniqueIds(tail, p);
      var rest := Keep(tail, p);
      if p(s[0]) {
        forall x | x in rest ensures x.id != s[0].id {
          var k :| 0 <= k < |tail| && tail[k] == x;
          assert s[k + 1] == x;
        }
        var r := [s[0]] + rest;
        assert Keep(s, p) == r;
        forall i, j | 0 <= i < |r| && 0 <= j < |r| && r[i].id == r[j].id ensures i == j {
          if i != 0 && j != 0 {
            assert rest[i - 1].id == rest[j - 1].id;
          }
        }
      }
    }
  }

  /** Toggling keeps the ids of the selection distinct. */
  lemma ToggleKeepsIdsUnique(sel: seq<KnowledgeItem>, item: KnowledgeItem)
    requires UniqueIds(sel)
    ensures UniqueIds(Toggle(sel, item))
  {
    if IsSelected(sel, item.id) {
      KeepUniqueIds(sel, OtherId(item.id));
    } else {
      var r := sel + [item];
      forall i, j | 0 <= i < |r| && 0 <= j < |r| && r[i].id == r[j].id ensures i == j {
      }
    }
  }

  /** Removing an id from a list with distinct ids removes exactly one entry. */
  lemma {:induction false} RemoveOneEntry(s: seq<KnowledgeItem>, id: string)
    requires UniqueIds(s) && IsSelected(s, id)
    ensures |Keep(s, OtherId(id))| == |s| - 1
  {
    var tail := s[1..];
    assert UniqueIds(tail) by {
      forall i, j | 0 <= i < |tail| && 0 <= j < |tail| && tail[i].id == tail[j].id ensures i == j {
        assert s[i + 1].id == s[j + 1].id;
      }
    }
    if s[0].id == id {
      forall x | x in tail ensures OtherId(id)(x) {
        var k :| 0 <= k < |tail| && tail[k] == x;
        assert s[k + 1] == x;
      }
      KeepAll(tail, OtherId(id));
    } else {
      var f :| f in s && f.id == id;
      assert f != s[0];
      assert f in tail;
      RemoveOneEntry(tail, id);
    }
  }

  /** With distinct ids, toggling a selected item shortens the selection by exactly one. */
  lemma ToggleOffRemovesOne(sel: seq<KnowledgeItem>, item: KnowledgeItem)
    requires UniqueIds(sel) && IsSelected(sel, item.id)
    ensures |Toggle(sel, item)| == |sel| - 1
  {
    RemoveOneEntry(sel, item.id);
  }

  /** Toggling an unselected item twice gives back the original selection. */
  lemma ToggleTwice(sel: seq<KnowledgeItem>, item: KnowledgeItem)
    requires !IsSelected(sel, item.id)
    ensures Toggle(Toggle(sel, item), item) == sel
  {
    var once := sel + [item];
    assert item in once;
    KeepAppend(sel, [item], OtherId(item.id));
    KeepAll(sel, OtherId(item.id));
    assert Keep([item], OtherId(item.id)) == [];
  }

  // ---------------------------------------------------------------------------
  // Context string of the generation request
  // ---------------------------------------------------------------------------

  /** The reference marker of one selected item. */
  function Tag(item: KnowledgeItem): string
  {
    "[参考源: " + item.name + "]"
  }

  /** The markers of the selected items, in selection order. */
  function Tags(sel: seq<KnowledgeItem>): (r: seq<string>)
    ensures |r| == |sel|
  {
    seq(|sel|, i requires 0 <= i < |sel| => Tag(sel[i]))
  }

  /** The context: the selection's markers joined by ", ". */
  function ContextString(sel: seq<KnowledgeItem>): string
  {
    Join(Tags(sel), ", ")
  }

  /** Selecting one more item appends its marker, after ", " unless it is the first. */
  lemma ContextAppend(sel: seq<KnowledgeItem>, item: KnowledgeItem)
    ensures ContextString(sel + [item]) ==
            if sel == [] then Tag(item) else ContextString(sel) + ", " + Tag(item)
  {
    assert Tags(sel + [item]) == Tags(sel) + [Tag(item)];
    JoinSnoc(Tags(sel), Tag(item), ", ");
  }

  /** The context is empty exactly when nothing is selected. */
  lemma ContextEmptyIffNoSelection(sel: seq<KnowledgeItem>)
    ensures ContextString(sel) == "" <==> sel == []
  {
    if sel != [] {
      var tags := Tags(sel);
      assert tags[0] == Tag(sel[0]);
      assert |Tag(sel[0])| > 0;
      if |tags| > 1 {
        assert ContextString(sel) == tags[0] + ", " + Join(tags[1..], ", ");
      }
    }
  }

  // ---------------------------------------------------------------------------
  // Template registry
  // ---------------------------------------------------------------------------

  /** Some template has id `id`. */
  predicate HasTemplate(ts: seq<Template>, id: string)
  {
    exists t :: t in ts && t.id == id
  }

  /** `templates.find(t => t.id === id)`: the first template with that id. */
  function FindTemplate(ts: seq<Template>, id: string): (r: Option<Template>)
    ensures r.None? <==> !HasTemplate(ts, id)
    ensures r.Some? ==> r.value.id == id
    ensures r.Some? ==>
              exists k :: 0 <= k < |ts| && ts[k] == r.value && forall j :: 0 <= j < k ==> ts[j].id != id
  {
    if ts == [] then None
    else if ts[0].id == id then Some(ts[0])
    else
      var r := FindTemplate(ts[1..], id);
      assert HasTemplate(ts, id) ==> HasTemplate(ts[1..], id) by {
        if HasTemplate(ts, id) {
          var t :| t in ts && t.id == id;
          assert t in ts[1..];
        }
      }
      if r.Some? then
        var k :| 0 <= k < |ts[1..]| && ts[1..][k] == r.value && forall j :: 0 <= j < k ==> ts[1..][j].id != id;
        assert ts[k + 1] == r.value;
        r
      else r
  }

  /** `currentTemplate`: the template with the selected id, or the first template when none has it. */
  function CurrentTemplate(ts: seq<Template>, id: string): (r: Template)
    requires |ts| > 0
    ensures r in ts
    ensures HasTemplate(ts, id) ==> r.id == id
    ensures !HasTemplate(ts, id) ==> r == ts[0]
  {
    FindTemplate(ts, id).GetOr(ts[0])
  }

  /** With distinct ids, the current template is the one entry carrying the selected id. */
  lemma CurrentIsTheOneWithId(ts: seq<Template>, id: string, k: nat)
    requires UniqueTemplateIds(ts) && k < |ts| && ts[k].id == id
    ensures CurrentTemplate(ts, id) == ts[k]
  {
    assert ts[k] in ts;
    var r := FindTemplate(ts, id);
    var i :| 0 <= i < |ts| && ts[i] == r.value && forall j :: 0 <= j < i ==> ts[j].id != id;
  }

  /**
   * `handleSaveTemplate`'s update: the template(s) with the selected id get the
   * edited structure; length, order, ids, names, descriptions, flags and every
   * other template stay as they were.
   */
  function SaveStructure(ts: seq<Template>, id: string, structure: seq<string>): (r: seq<Template>)
    ensures |r| == |ts|
    ensures forall k :: 0 <= k < |ts| ==>
              r[k].id == ts[k].id && r[k].name == ts[k].name &&
              r[k].description == ts[k].description && r[k].isCustom == ts[k].isCustom
    ensures forall k :: 0 <= k < |ts| && ts[k].id != id ==> r[k] == ts[k]
    ensures forall k :: 0 <= k < |ts| && ts[k].id == id ==> r[k].structure == structure
  {
    seq(|ts|, k requires 0 <= k < |ts| => if ts[k].id == id then ts[k].(structure := structure) else ts[k])
  }

  /** Saving keeps the ids of the registry distinct. */
  lemma SaveKeepsIdsUnique(ts: seq<Template>, id: string, structure: seq<string>)
    requires UniqueTemplateIds(ts)
    ensures UniqueTemplateIds(SaveStructure(ts, id, structure))
  {
  }

  /** After saving, the current template for that id is the old one with the saved structure. */
  lemma SaveThenCurrent(ts: seq<Template>, id: string, structure: seq<string>)
    requires |ts| > 0 && UniqueTemplateIds(ts) && HasTemplate(ts, id)
    ensures CurrentTemplate(SaveStructure(ts, id, structure), id) == CurrentTemplate(ts, id).(structure := structure)
  {
    var t :| t in ts && t.id == id;
    var k :| 0 <= k < |ts| && ts[k] == t;
    var saved := SaveStructure(ts, id, structure);
    CurrentIsTheOneWithId(ts, id, k);
    CurrentIsTheOneWithId(saved, id, k);
  }

  /** Saving under an id no template has changes nothing. */
  lemma SaveUnknownIdIsNoOp(ts: seq<Template>, id: string, structure: seq<string>)
    requires !HasTemplate(ts, id)
    ensures SaveStructure(ts, id, structure) == ts
  {
    var r := SaveStructure(ts, id, structure);
    forall k | 0 <= k < |ts| ensures r[k] == ts[k] {
      assert ts[k] in ts;
    }
  }

  /** The name of a custom template created with an empty name field. */
  const DefaultCustomName: string := "自定义模版"

  /** The structure of a freshly created custom template. */
  const FirstSection: string := "1. 第一章节"

  /** The new template of `handleAddCustomTemplate`, named from the `newTemplateName` field. */
  function NewCustomTemplate(id: string, nameField: string): (t: Template)
    ensures t.id == id && t.isCustom == Some(true) && t.structure == [FirstSection]
    ensures nameField == "" ==> t.name == DefaultCustomName
    ensures nameField != "" ==> t.name == nameField
  {
    Template(id, if nameField == "" then DefaultCustomName else nameField, "用户自定义业务模版", [FirstSection], Some(true))
  }

  /** Adding a template under a fresh id keeps ids distinct and makes it the current one for that id. */
  lemma AddThenCurrent(ts: seq<Template>, t: Template)
    requires UniqueTemplateIds(ts) && !HasTemplate(ts, t.id)
    ensures UniqueTemplateIds(ts + [t])
    ensures CurrentTemplate(ts + [t], t.id) == t
  {
    var r := ts + [t];
    forall i, j | 0 <= i < |r| && 0 <= j < |r| && r[i].id == r[j].id ensures i == j {
    }
    CurrentIsTheOneWithId(r, t.id, |ts|);
  }

  // ---------------------------------------------------------------------------
  // Structure editor
  // ---------------------------------------------------------------------------

  /** The title of a section added in the editor. */
  const NewSectionTitle: string := "新章节名称"

  /** `structure.filter((_, idx) => idx !== i)`: drop the entry at position `i`, if there is one. */
  function DropAt(s: seq<string>, i: int): (r: seq<string>)
    ensures 0 <= i < |s| ==> r == s[..i] + s[i + 1..]
    ensures !(0 <= i < |s|) ==> r == s
  {
    if s == [] then []
    else (if i == 0 then [] else [s[0]]) + DropAt(s[1..], i - 1)
  }

  /** Dropping a position keeps every other title in order and shortens the list by one. */
  lemma DropAtShape(s: seq<string>, i: nat)
    requires i < |s|
    ensures |DropAt(s, i)| == |s| - 1
    ensures forall k :: 0 <= k < i ==> DropAt(s, i)[k] == s[k]
    ensures forall k :: i <= k < |s| - 1 ==> DropAt(s, i)[k] == s[k + 1]
  {
  }

  /** Editing the title at position `i` changes that position only. */
  function SetSection(s: seq<string>, i: nat, title: string): (r: seq<string>)
    requires i < |s|
    ensures |r| == |s| && r[i] == title
    ensures forall k :: 0 <= k < |s| && k != i ==> r[k] == s[k]
  {
    s[i := title]
  }

  // ---------------------------------------------------------------------------
  // Generation request
  // ---------------------------------------------------------------------------

  const PromptHead: string := "要求使用模版 \""
  const PromptIntro: string := "\"，其章节结构如下："
  const DemandLabel: string := "业务需求："

  /** The demand prompt: the template's name, its sections one per line in array order, then the demand. */
  function FinalPrompt(t: Template, demand: string): (r: string)
    ensures |r| >= |demand| && r[|r| - |demand|..] == demand
    ensures |r| >= |PromptHead| + |t.name| && r[..|PromptHead| + |t.name|] == PromptHead + t.name
  {
    PromptHead + t.name + PromptIntro + "\n" + Join(t.structure, "\n") + "\n" + "\n" + DemandLabel + demand
  }

  /**
   * The prompt lists exactly the template's sections, one per line, in array
   * order and with duplicates kept: the n lines after the first are the n
   * sections, and the lines of the blank separator and the demand follow them.
   * An empty structure still joins to one (empty) line.
   */
  lemma PromptListsSections(t: Template, demand: string)
    requires '\n' !in t.name
    requires forall s :: s in t.structure ==> '\n' !in s
    ensures |SplitOn(FinalPrompt(t, demand), '\n')| >= 1 + |t.structure|
    ensures SplitOn(FinalPrompt(t, demand), '\n')[1..1 + |t.structure|] == t.structure
    ensures SplitOn(FinalPrompt(t, demand), '\n') ==
              [PromptHead + t.name + PromptIntro] + (if t.structure == [] then [""] else t.structure) +
              SplitOn("\n" + DemandLabel + demand, '\n')
  {
    var c := '\n';
    var head := PromptHead + t.name + PromptIntro;
    assert c !in PromptHead && c !in PromptIntro;
    assert c !in head;
    var tail := [c] + DemandLabel + demand;
    assert "\n" == [c];
    if |t.structure| == 0 {
      assert Join(t.structure, "\n") == "";
      assert FinalPrompt(t, demand) == head + [c] + ([c] + tail);
      SplitAtFirst(head, [c] + tail, c);
    } else {
      var rest := Join(t.structure, [c]) + [c] + tail;
      assert FinalPrompt(t, demand) == head + [c] + rest;
      SplitAtFirst(head, rest, c);
      SplitJoinThen(t.structure, tail, c);
      assert SplitOn(FinalPrompt(t, demand), c) == [head] + t.structure + SplitOn(tail, c);
    }
  }

  /** The request text sent to the model by `handleGenerate`. */
  function GenerationRequest(ts: seq<Template>, id: string, sel: seq<KnowledgeItem>, demand: string): string
    requires |ts| > 0
  {
    GenerationContents(FinalPrompt(CurrentTemplate(ts, id), demand), Some(ContextString(sel)))
  }

  /** With nothing selected, the request carries the default background instead of a context. */
  lemma NoSelectionSendsDefaultContext(ts: seq<Template>, id: string, demand: string)
    requires |ts| > 0
    ensures GenerationRequest(ts, id, [], demand) == GenerationContents(FinalPrompt(CurrentTemplate(ts, id), demand), None)
  {
    ContextEmptyIffNoSelection([]);
  }

  /** With a selection, the request ends with the selection's context string. */
  lemma SelectionSendsContext(ts: seq<Template>, id: string, sel: seq<KnowledgeItem>, demand: string)
    requires |ts| > 0 && sel != []
    ensures GenerationRequest(ts, id, sel, demand) ==
            GenerationHead + FinalPrompt(CurrentTemplate(ts, id), demand) + GenerationMid + ContextString(sel)
  {
    ContextEmptyIffNoSelection(sel);
  }

  /** What `result` becomes after a generation: the text (or "" when absent) on success, unchanged on failure. */
  function GenerationOutcome(reply: Reply<Option<string>>, previous: Option<string>): (r: Option<string>)
    ensures reply.Thrown? ==> r == previous
    ensures reply.Done? && reply.value.Some? ==> r == reply.value
    ensures reply.Done? && reply.value.None? ==> r == Some("")
  {
    match reply
    case Done(text) => Some(text.GetOr(""))
    case Thrown(_) => previous
  }

  // ---------------------------------------------------------------------------
  // The session state
  // ---------------------------------------------------------------------------

  /** The state of one workbench screen. */
  class Session {
    var demand: string
    var isGenerating: bool
    var result: Option<string>
    var selectedFiles: seq<KnowledgeItem>
    var templates: seq<Template>
    var selectedTemplateId: string
    var isEditingTemplate: bool
    var editingStructure: seq<string>
    var newTemplateName: string

    /** The registry is never empty and its ids are distinct; selected ids are distinct. */
    ghost predicate Valid()
      reads this
    {
      |templates| > 0 && UniqueTemplateIds(templates) && UniqueIds(selectedFiles)
    }

    /** The template the screen works with. */
    function Current(): (t: Template)
      reads this
      requires Valid()
      ensures t in templates
    {
      CurrentTemplate(templates, selectedTemplateId)
    }

    /** A fresh screen over the default templates, with the first one selected. */
    constructor ()
      ensures Valid()
      ensures templates == Constants.DefaultTemplates && selectedTemplateId == "t1"
      ensures demand == "" && !isGenerating && result == None && selectedFiles == []
      ensures !isEditingTemplate && editingStructure == [] && newTemplateName == ""
    {
      Constants.DefaultTemplatesWellFormed();
      demand, isGenerating, result, selectedFiles := "", false, None, [];
      templates, selectedTemplateId := Constants.DefaultTemplates, "t1";
      isEditingTemplate, editingStructure, newTemplateName := false, [], "";
    }

    /** `toggleFileSelection`. */
    method ToggleFile(item: KnowledgeItem)
      requires Valid()
      modifies this`selectedFiles
      ensures Valid()
      ensures selectedFiles == Toggle(old(selectedFiles), item)
    {
      ToggleKeepsIdsUnique(selectedFiles, item);
      selectedFiles := Toggle(selectedFiles, item);
    }

    /** The template drop-down: select a template by id. */
    method SelectTemplate(id: string)
      requires Valid()
      modifies this`selectedTemplateId
      ensures Valid() && selectedTemplateId == id
    {
      selectedTemplateId := id;
    }

    /** `handleEditTemplate`: open the editor on a copy of the current structure. */
    method EditTemplate()
      requires Valid()
      modifies this`editingStructure, this`isEditingTemplate
      ensures Valid()
      ensures editingStructure == Current().structure && isEditingTemplate
    {
      editingStructure := Current().structure;
      isEditingTemplate := true;
    }

    /** The editor's close button. */
    method CloseEditor()
      requires Valid()
      modifies this`isEditingTemplate
      ensures Valid()
      ensures !isEditingTemplate
    {
      isEditingTemplate := false;
    }

    /** An edit of the section title at position `i`. */
    method EditSection(i: nat, title: string)
      requires i < |editingStructure|
      requires Valid()
      modifies this`editingStructure
      ensures Valid()
      ensures editingStructure == SetSection(old(editingStructure), i, title)
    {
      editingStructure := SetSection(editingStructure, i, title);
    }

    /** The delete button of the section at position `i`. */
    method DeleteSection(i: nat)
      requires Valid()
      modifies this`editingStructure
      ensures Valid()
      ensures editingStructure == DropAt(old(editingStructure), i)
    {
      editingStructure := DropAt(editingStructure, i);
    }

    /** The "add section" button. */
    method AppendSection()
      requires Valid()
      modifies this`editingStructure
      ensures Valid()
      ensures editingStructure == old(editingStructure) + [NewSectionTitle]
    {
      editingStructure := editingStructure + [NewSectionTitle];
    }

    /** `handleSaveTemplate`: store the edited structure in the selected template and close the editor. */
    method SaveTemplate()
      requires Valid()
      modifies this`templates, this`isEditingTemplate
      ensures Valid()
      ensures templates == SaveStructure(old(templates), selectedTemplateId, editingStructure)
      ensures !isEditingTemplate
      ensures HasTemplate(old(templates), selectedTemplateId) ==> Current() == old(Current()).(structure := editingStructure)
    {
      SaveKeepsIdsUnique(templates, selectedTemplateId, editingStructure);
      if HasTemplate(templates, selectedTemplateId) {
        SaveThenCurrent(templates, selectedTemplateId, editingStructure);
      }
      templates := SaveStructure(templates, selectedTemplateId, editingStructure);
      isEditingTemplate := false;
    }

    /**
     * `handleAddCustomTemplate`, with `stamp` standing for the clock value the
     * new id is made from: append the template, select it, clear the name
     * field and open the editor on its structure.
     */
    method AddCustomTemplate(stamp: string)
      requires Valid()
      requires !HasTemplate(templates, "custom-" + stamp)
      modifies this`templates, this`selectedTemplateId, this`newTemplateName, this`editingStructure, this`isEditingTemplate
      ensures Valid()
      ensures templates == old(templates) + [NewCustomTemplate("custom-" + stamp, old(newTemplateName))]
      ensures selectedTemplateId == "custom-" + stamp && Current() == templates[|templates| - 1]
      ensures newTemplateName == "" && editingStructure == [FirstSection] && isEditingTemplate
    {
      var t := NewCustomTemplate("custom-" + stamp, newTemplateName);
      AddThenCurrent(templates, t);
      templates := templates + [t];
      selectedTemplateId := t.id;
      newTemplateName := "";
      editingStructure := t.structure;
      isEditingTemplate := true;
    }

    /**
     * `handleGenerate`: nothing happens without a demand; otherwise the request
     * built from the current template, the demand and the selection is sent, the
     * result takes the outcome, and the busy flag ends false on success and on
     * failure alike.
     */
    method Generate(model: string -> Reply<Option<string>>) returns (request: Option<string>)
      requires Valid()
      modifies this`isGenerating, this`result
      ensures Valid()
      ensures old(demand) == "" ==> request == None && isGenerating == old(isGenerating) && result == old(result)
      ensures demand != "" ==> request == Some(GenerationRequest(templates, selectedTemplateId, selectedFiles, demand))
      ensures demand != "" ==> !isGenerating && result == GenerationOutcome(model(request.value), old(result))
    {
      if demand == "" {
        return None;
      }
      isGenerating := true;
      var context := ContextString(selectedFiles);
      var prompt := FinalPrompt(Current(), demand);
      request := Some(GenerationContents(prompt, Some(context)));
      var reply := GenerateSolution(prompt, Some(context), model);
      result := GenerationOutcome(reply, result);
      isGenerating := false;
    }
  }
}
