/**
 * The records the workbench passes around: knowledge items (documents, URLs,
 * policies, folders) and section-outline templates.
 */
module Types {

  /** An optional field (`field?: T` in the TypeScript declarations, `types.ts`). */
  datatype Option<T> = None | Some(value: T) {
    /** The value, or `default` when the field is absent. */
    function GetOr(default: T): T {
      match this
      case Some(v) => v
      case None => default
    }
  }

  /** The kind of a knowledge item. */
  datatype ItemType = PDF | DOCX | PPTX | URL | XLSX | POLICY | FOLDER | TXT | JPG | PNG | MP4

  /** Public, internal or confidential; informational only. */
  datatype SecurityLevel = Public | Internal | Confidential

  /** Whether the extracted `content` of an item has been populated. */
  datatype ParseStatus = Pending | Parsing | Success | Failed

  /** The fields a policy adds to a knowledge item. */
  datatype PolicyInfo = PolicyInfo(
    authority: string,
    effectiveness: string,
    tags: seq<string>,
    recommendReason: string)

  /**
   * A knowledge item. A policy item is a knowledge item that also carries the
   * policy fields, so `policy` is `Some` exactly for the policy records.
   */
  datatype KnowledgeItem = KnowledgeItem(
    id: string,
    name: string,
    itemType: ItemType,
    domain: string,
    scenario: string,
    version: string,
    updateTime: string,
    securityLevel: SecurityLevel,
    size: string,
    url: Option<string>,
    source: Option<string>,
    parentFolderId: Option<string>,
    author: Option<string>,
    content: Option<string>,
    isDeleted: Option<bool>,
    deletedAt: Option<string>,
    originalParentId: Option<string>,
    parseStatus: Option<ParseStatus>,
    policy: Option<PolicyInfo>)

  /** A named, ordered list of section titles. */
  datatype Template = Template(
    id: string,
    name: string,
    description: string,
    structure: seq<string>,
    isCustom: Option<bool>)

  /** No two entries of `items` share an id. */
  predicate UniqueIds(items: seq<KnowledgeItem>) {
    forall i, j :: 0 <= i < |items| && 0 <= j < |items| && items[i].id == items[j].id ==> i == j
  }

  /** No two templates share an id. */
  predicate UniqueTemplateIds(ts: seq<Template>) {
    forall i, j :: 0 <= i < |ts| && 0 <= j < |ts| && ts[i].id == ts[j].id ==> i == j
  }
}
