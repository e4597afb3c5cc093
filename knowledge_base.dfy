/**
 * The knowledge library view: which list a tab shows, the name search over it,
 * the "recommended" policies, the empty-URL guard of the web import, and the
 * card action that starts a policy analysis.
 */
module KnowledgeBase {
  import opened Types
  import opened Sequences
  import opened Text
  import opened GeminiService

  /** The two tabs of the library. */
  datatype Tab = StandardTab | PolicyTab

  /** The list a tab draws from: the document library or the policy library. */
  function TabSource(tab: Tab, knowledge: seq<KnowledgeItem>, policies: seq<KnowledgeItem>): seq<KnowledgeItem>
  {
    if tab == StandardTab then knowledge else policies
  }

  /** The card list: the active tab's items whose lower-cased name contains the lower-cased search term. */
  function Listing(tab: Tab, searchTerm: string, knowledge: seq<KnowledgeItem>, policies: seq<KnowledgeItem>): (r: seq<KnowledgeItem>)
    ensures forall x :: x in r <==> x in TabSource(tab, knowledge, policies) && NameMatches(x.name, searchTerm)
    ensures multiset(r) <= multiset(TabSource(tab, knowledge, policies))
  {
    Keep(TabSource(tab, knowledge, policies), (x: KnowledgeItem) => NameMatches(x.name, searchTerm))
  }

  /** The listing keeps the relative order of the source list. */
  lemma ListingIsSubsequence(tab: Tab, searchTerm: string, knowledge: seq<KnowledgeItem>, policies: seq<KnowledgeItem>)
    ensures IsSubsequence(Listing(tab, searchTerm, knowledge, policies), TabSource(tab, knowledge, policies))
  {
    KeepIsSubsequence(TabSource(tab, knowledge, policies), (x: KnowledgeItem) => NameMatches(x.name, searchTerm));
  }

  /** With an empty search term the whole list of the tab is shown. */
  lemma ListingEmptyTerm(tab: Tab, knowledge: seq<KnowledgeItem>, policies: seq<KnowledgeItem>)
    ensures Listing(tab, "", knowledge, policies) == TabSource(tab, knowledge, policies)
  {
    forall x: KnowledgeItem ensures NameMatches(x.name, "") {
      EmptyTermMatches(x.name);
    }
    KeepAll(TabSource(tab, knowledge, policies), (x: KnowledgeItem) => NameMatches(x.name, ""));
  }

  /** An item is listed exactly when it belongs to the tab and some slice of its name equals the term up to ASCII case. */
  lemma ListingMembership(tab: Tab, searchTerm: string, knowledge: seq<KnowledgeItem>, policies: seq<KnowledgeItem>, x: KnowledgeItem)
    ensures x in Listing(tab, searchTerm, knowledge, policies) <==>
            x in TabSource(tab, knowledge, policies) && exists i :: MatchesAt(x.name, searchTerm, i)
  {
    NameMatchesIffSlice(x.name, searchTerm);
  }

  /** A record shown under "recommended": a policy whose `recommendReason` is a non-empty string. */
  predicate HasRecommendReason(p: KnowledgeItem)
  {
    p.policy.Some? && p.policy.value.recommendReason != ""
  }

  /** The recommended section: the policies with a recommendation reason, in list order. */
  function Recommended(policies: seq<KnowledgeItem>): (r: seq<KnowledgeItem>)
    ensures forall p :: p in r <==> p in policies && HasRecommendReason(p)
    ensures multiset(r) <= multiset(policies)
  {
    Keep(policies, HasRecommendReason)
  }

  /** The recommended section keeps the order of the policy list. */
  lemma RecommendedIsSubsequence(policies: seq<KnowledgeItem>)
    ensures IsSubsequence(Recommended(policies), policies)
  {
    KeepIsSubsequence(policies, HasRecommendReason);
  }

  /** The state the web-import dialog reads and writes. */
  datatype ImportState = ImportState(modalOpen: bool, urlInput: string, importing: bool, importStep: nat)

  /**
   * `handleUrlImport` up to its first timer: nothing happens for an empty URL;
   * otherwise the import starts at step 1 with the dialog and URL as they were.
   */
  function StartUrlImport(s: ImportState): (r: ImportState)
    ensures s.urlInput == "" ==> r == s
    ensures s.urlInput != "" ==> r.importing && r.importStep == 1
    ensures r.urlInput == s.urlInput && r.modalOpen == s.modalOpen
  {
    if s.urlInput == "" then s
    else s.(importing := true, importStep := 1)
  }

  /** The policy-analysis panel: the policy shown, its analysis text and the busy flag. */
  datatype PolicyPanel = PolicyPanel(selected: Option<KnowledgeItem>, analysis: Option<string>, analyzing: bool)

  /** The failure text of the panel when the service throws. */
  const AnalysisFailed: string := "解析失败。"

  /** The analysis text the panel keeps for a service outcome: an empty or missing text shows nothing. */
  function AnalysisText(reply: Reply<Option<string>>): (r: Option<string>)
    ensures reply.Thrown? ==> r == Some(AnalysisFailed)
    ensures reply.Done? ==> (r.Some? <==> Truthy(reply.value))
    ensures reply.Done? && r.Some? ==> r == reply.value
  {
    match reply
    case Done(text) => if Truthy(text) then text else None
    case Thrown(_) => Some(AnalysisFailed)
  }

  /** `handleAnalyzePolicy` run to completion: the panel shows the policy and the service's answer. */
  function AnalyzePolicyPanel(policy: KnowledgeItem, clientFailure: Option<string>, model: string -> Reply<Option<string>>): (r: PolicyPanel)
    ensures r.selected == Some(policy) && !r.analyzing
    ensures clientFailure.Some? ==> r.analysis == Some(AnalysisFailed)
    ensures clientFailure.None? && model(policy.name).Done? ==> r.analysis == AnalysisText(model(policy.name))
  {
    PolicyPanel(Some(policy), AnalysisText(AnalyzePolicy(policy.name, clientFailure, model)), false)
  }

  /** Once the client is built, a failing model never reaches the panel as a failure: it shows the service's fallback text. */
  lemma ModelFailureShowsFallback(policy: KnowledgeItem, model: string -> Reply<Option<string>>)
    requires model(policy.name).Thrown?
    ensures AnalyzePolicyPanel(policy, None, model).analysis == Some(PolicyFallback)
  {
  }

  /** The card's action button: it analyses the item when it is a policy and does nothing otherwise. */
  function ClickCard(panel: PolicyPanel, item: KnowledgeItem, clientFailure: Option<string>, model: string -> Reply<Option<string>>): (r: PolicyPanel)
    ensures item.itemType != POLICY ==> r == panel
    ensures item.itemType == POLICY ==> r == AnalyzePolicyPanel(item, clientFailure, model)
    ensures item.itemType == POLICY ==> r.selected == Some(item) && !r.analyzing
  {
    if item.itemType == POLICY then AnalyzePolicyPanel(item, clientFailure, model) else panel
  }
}
