/** The knowledge agent: answers a question with the article of the first topic, in a fixed
    order, one of whose keywords occurs in the lower-cased question, or with a list of the
    available topics. The article texts are not modelled: `Article(topic)` stands for the
    knowledge base's entry for `topic`. */
module KnowledgeAgent {
  import opened Wrappers
  import opened PyStrings
  import opened Records
  import BaseAgent

  /** The keys of `knowledge_base`, in the dictionary's order. */
  const KnowledgeTopics: seq<string> := [
    "lipinski", "admet", "docking", "virtual_screening", "pharmacophore", "qsar",
    "lead_optimization", "high_throughput_screening", "drug_target", "bioavailability"
  ]

  /** `keywords_map`, in the dictionary's order: (topic, keywords). */
  const KeywordsMap: seq<(string, seq<string>)> := [
    ("lipinski", ["lipinski", "rule of 5", "rule of five", "ro5"]),
    ("admet", ["admet", "absorption", "distribution", "metabolism", "excretion", "toxicity"]),
    ("docking", ["docking", "binding score", "docking score"]),
    ("virtual_screening", ["virtual screening", "computational screening"]),
    ("pharmacophore", ["pharmacophore"]),
    ("qsar", ["qsar", "structure activity", "structure-activity"]),
    ("lead_optimization", ["lead optimization", "lead optimisation"]),
    ("high_throughput_screening", ["hts", "high throughput", "high-throughput"]),
    ("drug_target", ["drug target", "target", "protein target"]),
    ("bioavailability", ["bioavailability", "bioavailable"])
  ]

  /** An answer: a topic's article, or the default text listing the topics. */
  datatype Answer = Article(topic: string) | TopicList

  /** `any(kw in question for kw in keywords)`. */
  function AnyOccurs(keywords: seq<string>, question: string): (b: bool)
    ensures b <==> exists i :: 0 <= i < |keywords| && Contains(question, keywords[i])
  {
    if keywords == [] then false
    else Contains(question, keywords[0]) || AnyOccurs(keywords[1..], question)
  }

  /** Entry `i` of a keyword table matches the question. */
  predicate Matches(table: seq<(string, seq<string>)>, i: int, question: string) {
    0 <= i < |table| && AnyOccurs(table[i].1, question)
  }

  /** `_find_answer` over a keyword table: the topic of the first matching entry, else the
      topic list. */
  function FindAnswerIn(table: seq<(string, seq<string>)>, question: string): (a: Answer)
    ensures a == TopicList <==> forall i :: 0 <= i < |table| ==> !Matches(table, i, question)
    ensures a.Article? ==> exists i :: Matches(table, i, question) && a.topic == table[i].0
                                       && forall j :: 0 <= j < i ==> !Matches(table, j, question)
  {
    if table == [] then TopicList
    else if AnyOccurs(table[0].1, question) then
      assert Matches(table, 0, question);
      Article(table[0].0)
    else
      var a := FindAnswerIn(table[1..], question);
      assert (forall i :: 0 <= i < |table| ==> !Matches(table, i, question))
             <==> (forall i :: 0 <= i < |table| - 1 ==> !Matches(table[1..], i, question)) by {
        forall i | 0 <= i < |table| - 1 ensures Matches(table[1..], i, question) <==> Matches(table, i + 1, question) {
          assert table[1..][i] == table[i + 1];
        }
        forall i | 1 <= i < |table| ensures Matches(table, i, question) <==> Matches(table[1..], i - 1, question) {
          assert table[1..][i - 1] == table[i];
        }
      }
      if a.Article? then
        var i :| Matches(table[1..], i, question) && a.topic == table[1..][i].0
                 && forall j :: 0 <= j < i ==> !Matches(table[1..], j, question);
        assert Matches(table, i + 1, question) && forall j :: 0 <= j < i + 1 ==> !Matches(table, j, question) by {
          assert table[1..][i] == table[i + 1];
          forall j | 1 <= j < i + 1 ensures !Matches(table, j, question) {
            assert !Matches(table[1..], j - 1, question);
            assert table[1..][j - 1] == table[j];
          }
        }
        a
      else
        a
  }

  function FindAnswer(question: string): Answer {
    FindAnswerIn(KeywordsMap, question)
  }

  /** The agent's answer: `{question, answer, status: "success"}` or the status-less
      `{error: "Missing question field"}`. */
  datatype KnowledgeResult =
    | Answered(question: string, answer: Answer)
    | MissingQuestion(error: string)
  {
    function Status(): Option<string> {
      if Answered? then Some("success") else None
    }
  }

  /** `KnowledgeAgent.execute`: the search runs on the lower-cased question, while the reply
      echoes the question as given. */
  function Execute(input: Query): (r: KnowledgeResult)
    ensures r.MissingQuestion? <==> input.question.None?
    ensures r.MissingQuestion? ==> r.error == "Missing question field"
    ensures r.Answered? ==> r.question == input.question.value
                            && r.answer == FindAnswer(Lower(input.question.value))
  {
    if !BaseAgent.ValidateInput(input.Keys(), ["question"]) then MissingQuestion("Missing question field")
    else Answered(input.question.value, FindAnswer(Lower(input.question.value)))
  }

  /** A request carrying just this question. */
  function QuestionQuery(q: string): Query {
    EmptyQuery.(question := Some(q))
  }

  /** Every topic of the keyword table has an article, so the article lookup cannot fail. */
  lemma EveryTopicHasAnArticle()
    ensures forall i :: 0 <= i < |KeywordsMap| ==> KeywordsMap[i].0 in KnowledgeTopics
  {
  }

  /** Every answer the agent gives is one of the articles or the topic list. */
  lemma AnswersAreArticles(q: Query)
    requires q.question.Some?
    ensures Execute(q).answer.Article? ==> Execute(q).answer.topic in KnowledgeTopics
  {
    EveryTopicHasAnArticle();
  }

  /** Matching ignores case: a question and its upper-cased form get the same answer. */
  lemma AnswerIgnoresCase(s: string)
    ensures Execute(QuestionQuery(Upper(s))).answer == Execute(QuestionQuery(s)).answer
  {
    LowerOfUpper(s);
  }

  /** The first matching topic wins: a question that mentions one of ADMET's keywords
      ("metabolism", say) and none of Lipinski's gets the ADMET article, even when it also
      mentions docking. */
  lemma AdmetComesBeforeDocking(s: string, k: nat)
    requires k < |KeywordsMap[1].1| && Contains(Lower(s), KeywordsMap[1].1[k])
    requires !AnyOccurs(KeywordsMap[0].1, Lower(s))
    ensures Execute(QuestionQuery(s)) == Answered(s, Article("admet"))
  {
    assert Matches(KeywordsMap, 1, Lower(s));
  }

  /** "target" is itself a keyword of the drug target topic, so any question containing it
      that matched no earlier topic is answered by that topic. */
  lemma TargetKeywordCatchesAll(s: string)
    requires Contains(Lower(s), "target")
    requires forall i :: 0 <= i < 8 ==> !Matches(KeywordsMap, i, Lower(s))
    ensures Execute(QuestionQuery(s)).answer == Article("drug_target")
  {
    assert KeywordsMap[8].1[1] == "target";
    assert Matches(KeywordsMap, 8, Lower(s));
  }

  /** A question in which no keyword occurs gets the topic list. */
  lemma UnmatchedQuestionGetsTopicList(s: string)
    requires forall i, j :: 0 <= i < |KeywordsMap| && 0 <= j < |KeywordsMap[i].1| ==> !Contains(Lower(s), KeywordsMap[i].1[j])
    ensures Execute(QuestionQuery(s)) == Answered(s, TopicList)
  {
  }
}
