/**
 * The shipped data: the three default templates, the mock document library and
 * the mock policy library, with the facts about them the screens rely on.
 */
module Constants {
  import opened Types
  import opened Sequences
  import opened KnowledgeBase

  /** A library record with only the fields the shipped data sets. */
  function Record(id: string, name: string, itemType: ItemType, domain: string, scenario: string,
                  version: string, updateTime: string, level: SecurityLevel, size: string,
                  url: Option<string>, policy: Option<PolicyInfo>): KnowledgeItem
  {
    KnowledgeItem(id, name, itemType, domain, scenario, version, updateTime, level, size,
                  url, None, None, None, None, None, None, None, None, policy)
  }

  /** The templates a new session starts with. */
  const DefaultTemplates: seq<Template> := [
    Template("t1", "项目建设方案", "标准技术建议书，适用于政府、国企数字化招投标",
      ["1. 建设背景", "2. 现状与问题", "3. 建设目标", "4. 总体架构", "5. 产品体系", "6. 实施路径", "7. 服务保障", "8. 风险管控", "9. 成效预期"],
      None),
    Template("t2", "项目申报书", "适用于发改委、经信局项目立项申报",
      ["一、项目必要性", "二、项目建设基础", "三、主要建设内容", "四、技术路线及创新点", "五、经济效益分析", "六、社会效益评估"],
      None),
    Template("t3", "可行性研究报告", "深度分析项目投资、技术及商业可行性",
      ["第一章 总论", "第二章 项目建设必要性", "第三章 市场供求分析", "第四章 产品方案与建设规模", "第五章 选址与建设条件", "第六章 技术方案及工程方案"],
      None)
  ]

  /** The mock document library. */
  const MockKnowledge: seq<KnowledgeItem> := [
    Record("1", "智慧城市底层架构白皮书.pdf", PDF, "智慧城市", "底层架构", "V2.1", "2026-01-20", Internal, "4.5MB", None, None),
    Record("2", "金融云安全合规手册.docx", DOCX, "金融科技", "安全合规", "V1.5", "2026-02-01", Confidential, "1.2MB", None, None),
    Record("url-1", "讯飞EPDM-语音识别产品规范", URL, "人工智能", "产品规范", "Realtime", "2026-02-05", Internal, "N/A",
           Some("https://epdm.iflytek.com/web/..."), None),
    Record("3", "全渠道零售解决方案PPT.pptx", PPTX, "零售电商", "全渠道融合", "V3.0", "2026-02-03", Public, "12.8MB", None, None)
  ]

  /** The mock policy library. */
  const MockPolicies: seq<KnowledgeItem> := [
    Record("p1", "关于加快公共数据资源普查与授权运营的指导意见", POLICY, "数据要素", "公共数据", "2025年12号", "2025-12-15", Public, "N/A", None,
           Some(PolicyInfo("国家数据局", "行政法规", ["数据要素", "授权运营"],
                           "基于您近期生成的“智慧政务平台”方案，该文件对数据共享章节有重要指导作用。"))),
    Record("p2", "金融分布式账本技术安全规范 (JR/T 0184—2024)", POLICY, "金融科技", "区块链安全", "行业标准", "2024-11-20", Public, "N/A", None,
           Some(PolicyInfo("中国人民银行", "部门规章", ["区块链", "金融安全"],
                           "匹配您的专业领域“金融科技”，建议作为底层安全设计依据。"))),
    Record("p3", "“人工智能+”行动计划实施指南 (2025-2027)", POLICY, "人工智能", "算力基础设施", "征求意见稿", "2026-01-05", Public, "N/A", None,
           Some(PolicyInfo("工业和信息化部", "部门规章", ["AI+", "算力中心"],
                           "全网热点：近期该政策对 AI 基础设施方案的立项申报具有高权重影响。")))
  ]

  /** The default registry is non-empty, its ids are distinct, and every template has sections. */
  lemma DefaultTemplatesWellFormed()
    ensures |DefaultTemplates| == 3
    ensures UniqueTemplateIds(DefaultTemplates)
    ensures forall t :: t in DefaultTemplates ==> |t.structure| > 0
  {
    assert DefaultTemplates[0].id == "t1" && DefaultTemplates[1].id == "t2" && DefaultTemplates[2].id == "t3";
    assert "t1"[1] == '1' && "t2"[1] == '2' && "t3"[1] == '3';
  }

  /** Every shipped policy carries a recommendation reason, so all of them are recommended, in order. */
  lemma AllMockPoliciesRecommended()
    ensures Recommended(MockPolicies) == MockPolicies
  {
    forall p | p in MockPolicies ensures HasRecommendReason(p) {
    }
    KeepAll(MockPolicies, HasRecommendReason);
  }

  /** On the document tab no card starts an analysis; on the policy tab every card does. */
  lemma CardActionsOfMockLists(panel: PolicyPanel, clientFailure: Option<string>, model: string -> GeminiService.Reply<Option<string>>)
    ensures forall x :: x in MockKnowledge ==> ClickCard(panel, x, clientFailure, model) == panel
    ensures forall p :: p in MockPolicies ==> ClickCard(panel, p, clientFailure, model).selected == Some(p)
  {
  }
}
