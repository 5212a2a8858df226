/**
 * The hand-written knowledge graph of the triplet demo
 * (knowledge-graph-deep-dive/demo_triplets.py): 15 entity nodes, 17 edges, the
 * list that pairs each edge with its two nodes, the configuration check, the
 * center-node queries and the truncation of displayed results.
 *
 * The 15 `uuid.uuid4()` values are the input `uuids`, in the order the script
 * draws them; the 17 `datetime.now(timezone.utc)` readings are the input
 * `clock`, in edge order.
 */
module DemoTriplets {
  import opened Wrappers

  type Timestamp = string

  const GroupId := "ai_demo"
  const EntityCount := 15
  const EdgeCount := 17

  /** The subjects of the demo graph. */
  datatype Entity =
    | Claude | Anthropic | Gpt4 | OpenAI | Gemini | Google | Dario | Sam
    | Sundar | Llama | Meta | Mark | ConstitutionalAi | Transformer | Attention

  datatype EntityNode = EntityNode(uuid: string, name: string, summary: string, groupId: string)

  datatype EntityEdge = EntityEdge(groupId: string, sourceNodeUuid: string, targetNodeUuid: string,
                                   createdAt: Timestamp, name: string, fact: string)

  datatype Triplet = Triplet(source: EntityNode, edge: EntityEdge, target: EntityNode)

  // ---------------------------------------------------------------------------
  // Identifiers

  /** Which of the script's `uuid.uuid4()` calls gives the entity its id. */
  function Slot(e: Entity): (k: nat)
    ensures k < EntityCount
  {
    match e
    case Claude => 0 case Anthropic => 1 case Gpt4 => 2 case OpenAI => 3 case Gemini => 4
    case Google => 5 case Dario => 6 case Sam => 7 case Sundar => 8 case Llama => 9
    case Meta => 10 case Mark => 11 case ConstitutionalAi => 12 case Transformer => 13
    case Attention => 14
  }

  /** The entity whose id the `k`-th call gives. */
  function EntityAt(k: nat): Entity
    requires k < EntityCount
  {
    [Claude, Anthropic, Gpt4, OpenAI, Gemini, Google, Dario, Sam,
     Sundar, Llama, Meta, Mark, ConstitutionalAi, Transformer, Attention][k]
  }

  /** Each generated id goes to exactly one entity. */
  lemma SlotInjective(e: Entity)
    ensures EntityAt(Slot(e)) == e
  {
  }

  function Uuid(uuids: seq<string>, e: Entity): string
    requires |uuids| == EntityCount
  {
    uuids[Slot(e)]
  }

  /** What `uuid.uuid4()` is trusted to deliver: no two calls give the same id. */
  ghost predicate Distinct(uuids: seq<string>) {
    forall i, j :: 0 <= i < j < |uuids| ==> uuids[i] != uuids[j]
  }

  // ---------------------------------------------------------------------------
  // Nodes

  function Name(e: Entity): string {
    match e
    case Claude => "Claude"
    case Gpt4 => "GPT-4"
    case Gemini => "Gemini"
    case Llama => "LLaMA"
    case Anthropic => "Anthropic"
    case OpenAI => "OpenAI"
    case Google => "Google"
    case Meta => "Meta"
    case Dario => "Dario Amodei"
    case Sam => "Sam Altman"
    case Sundar => "Sundar Pichai"
    case Mark => "Mark Zuckerberg"
    case ConstitutionalAi => "Constitutional AI"
    case Transformer => "Transformer Architecture"
    case Attention => "Attention Mechanism"
  }

  function Summary(e: Entity): string {
    match e
    case Claude => "Constitutional AI assistant developed by Anthropic with advanced reasoning capabilities"
    case Gpt4 => "Large multimodal language model developed by OpenAI with 175B+ parameters"
    case Gemini => "Google's family of multimodal large language models designed to be flexible and efficient"
    case Llama => "Meta's Large Language Model trained on diverse text data with open-source variants"
    case Anthropic => "AI safety company founded in 2021 focused on developing safe, beneficial AI systems"
    case OpenAI => "AI research company founded in 2015 focused on ensuring AGI benefits all of humanity"
    case Google => "Technology company with advanced AI research division Google DeepMind"
    case Meta => "Social media and technology company with significant AI research investments"
    case Dario => "CEO and co-founder of Anthropic, formerly VP of Research at OpenAI"
    case Sam => "CEO of OpenAI, entrepreneur and investor in AI technology"
    case Sundar => "CEO of Google and Alphabet, oversees Google's AI initiatives"
    case Mark => "CEO and founder of Meta, driving the company's AI and metaverse strategy"
    case ConstitutionalAi => "AI training methodology that uses a set of principles to guide model behavior"
    case Transformer => "Neural network architecture that revolutionized natural language processing"
    case Attention => "Key component of transformer models that allows focusing on relevant parts of input"
  }

  /** The `EntityNode(...)` literal for `e`. */
  function Node(uuids: seq<string>, e: Entity): EntityNode
    requires |uuids| == EntityCount
  {
    EntityNode(Uuid(uuids, e), Name(e), Summary(e), GroupId)
  }


  // ---------------------------------------------------------------------------
  // Edges and triplets, as the script lists them

  /** One `EntityEdge(...)` literal without its generated timestamp. */
  datatype EdgeRow = EdgeRow(source: Entity, target: Entity, name: string, fact: string)

  /** The `edges` list, in order. */
  const EdgeRows: seq<EdgeRow> := [
    EdgeRow(Claude, Anthropic, "DEVELOPED_BY", "Claude is developed by Anthropic"),
    EdgeRow(Gpt4, OpenAI, "DEVELOPED_BY", "GPT-4 is developed by OpenAI"),
    EdgeRow(Gemini, Google, "DEVELOPED_BY", "Gemini is developed by Google"),
    EdgeRow(Llama, Meta, "DEVELOPED_BY", "LLaMA is developed by Meta"),
    EdgeRow(Dario, Anthropic, "CEO_OF", "Dario Amodei is the CEO of Anthropic"),
    EdgeRow(Sam, OpenAI, "CEO_OF", "Sam Altman is the CEO of OpenAI"),
    EdgeRow(Sundar, Google, "CEO_OF", "Sundar Pichai is the CEO of Google"),
    EdgeRow(Mark, Meta, "CEO_OF", "Mark Zuckerberg is the CEO of Meta"),
    EdgeRow(Claude, ConstitutionalAi, "USES_TECHNOLOGY", "Claude uses Constitutional AI methodology"),
    EdgeRow(Gpt4, Transformer, "BASED_ON", "GPT-4 is based on Transformer architecture"),
    EdgeRow(Gemini, Transformer, "BASED_ON", "Gemini is based on Transformer architecture"),
    EdgeRow(Llama, Transformer, "BASED_ON", "LLaMA is based on Transformer architecture"),
    EdgeRow(Transformer, Attention, "UTILIZES", "Transformer architecture utilizes attention mechanisms"),
    EdgeRow(Dario, OpenAI, "FORMER_VP_AT", "Dario Amodei was formerly VP of Research at OpenAI"),
    EdgeRow(Claude, Gpt4, "COMPETES_WITH", "Claude competes with GPT-4 in the AI assistant market"),
    EdgeRow(Gemini, Gpt4, "COMPETES_WITH", "Gemini competes with GPT-4 in the AI market"),
    EdgeRow(Anthropic, ConstitutionalAi, "PIONEERED", "Anthropic pioneered Constitutional AI methodology")
  ]

  /** The edges as created: ids looked up from the generated uuids, one clock reading each. */
  function Edges(uuids: seq<string>, clock: seq<Timestamp>): (es: seq<EntityEdge>)
    requires |uuids| == EntityCount && |clock| == |EdgeRows|
    ensures |es| == |EdgeRows|
    ensures forall i :: 0 <= i < |es| ==>
      es[i] == EntityEdge(GroupId, Uuid(uuids, EdgeRows[i].source), Uuid(uuids, EdgeRows[i].target),
                          clock[i], EdgeRows[i].name, EdgeRows[i].fact)
  {
    seq(|EdgeRows|, i requires 0 <= i < |EdgeRows| =>
      var row := EdgeRows[i];
      EntityEdge(GroupId, Uuid(uuids, row.source), Uuid(uuids, row.target), clock[i], row.name, row.fact))
  }

  /** One entry `(source_node, edges[edge], target_node)` of the `triplets` list. */
  datatype Link = Link(source: Entity, edge: nat, target: Entity)

  /** The `triplets` list, written with the entities and edge indices it names. */
  const Links: seq<Link> := [
    Link(Claude, 0, Anthropic),
    Link(Gpt4, 1, OpenAI),
    Link(Gemini, 2, Google),
    Link(Llama, 3, Meta),
    Link(Dario, 4, Anthropic),
    Link(Sam, 5, OpenAI),
    Link(Sundar, 6, Google),
    Link(Mark, 7, Meta),
    Link(Claude, 8, ConstitutionalAi),
    Link(Gpt4, 9, Transformer),
    Link(Gemini, 10, Transformer),
    Link(Llama, 11, Transformer),
    Link(Transformer, 12, Attention),
    Link(Dario, 13, OpenAI),
    Link(Claude, 14, Gpt4),
    Link(Gemini, 15, Gpt4),
    Link(Anthropic, 16, ConstitutionalAi)
  ]

  /** Every link names an existing edge. */
  lemma LinksInRange()
    ensures forall i :: 0 <= i < |Links| ==> Links[i].edge < |EdgeRows|
  {
  }

  /** The triplets handed to `add_triplet`, in order. */
  function Triplets(uuids: seq<string>, clock: seq<Timestamp>): (ts: seq<Triplet>)
    requires |uuids| == EntityCount && |clock| == |EdgeRows|
    ensures |ts| == |Links|
    ensures forall i :: 0 <= i < |ts| ==>
      Links[i].edge < |EdgeRows| && ts[i] ==
        Triplet(Node(uuids, Links[i].source), Edges(uuids, clock)[Links[i].edge], Node(uuids, Links[i].target))
  {
    LinksInRange();
    var edges := Edges(uuids, clock);
    seq(|Links|, i requires 0 <= i < |Links| =>
      Triplet(Node(uuids, Links[i].source), edges[Links[i].edge], Node(uuids, Links[i].target)))
  }

  /** The edge names the ids of the nodes it is submitted with, and all three are in the demo group. */
  predicate WellFormedTriplet(t: Triplet) {
    && t.edge.sourceNodeUuid == t.source.uuid
    && t.edge.targetNodeUuid == t.target.uuid
    && t.source.groupId == GroupId && t.edge.groupId == GroupId && t.target.groupId == GroupId
  }

  // ---------------------------------------------------------------------------
  // Properties of the dataset

  /** The `i`-th triplet uses the `i`-th edge, and its nodes are that edge's endpoints. */
  lemma LinksMatchEdgeRows()
    ensures |Links| == |EdgeRows| == EdgeCount
    ensures forall i :: 0 <= i < |Links| ==>
      Links[i].edge == i && Links[i].source == EdgeRows[i].source && Links[i].target == EdgeRows[i].target
  {
  }

  /** Every triplet of the list is well formed and carries the edge with its own index. */
  lemma TripletsWellFormed(uuids: seq<string>, clock: seq<Timestamp>)
    requires |uuids| == EntityCount && |clock| == EdgeCount
    ensures |Triplets(uuids, clock)| == |Edges(uuids, clock)| == EdgeCount
    ensures forall i :: 0 <= i < EdgeCount ==>
      Triplets(uuids, clock)[i].edge == Edges(uuids, clock)[i] && WellFormedTriplet(Triplets(uuids, clock)[i])
  {
    LinksMatchEdgeRows();
  }

  /** Given distinct generated ids, two entities share an id only if they are the same entity. */
  lemma NodeIdsDistinct(uuids: seq<string>, e: Entity, f: Entity)
    requires |uuids| == EntityCount && Distinct(uuids)
    ensures Node(uuids, e).uuid == Node(uuids, f).uuid <==> e == f
  {
    if e != f {
      SlotInjective(e);
      SlotInjective(f);
      var i, j := Slot(e), Slot(f);
      if i < j { assert uuids[i] != uuids[j]; } else { assert uuids[j] != uuids[i]; }
    }
  }

  /** No two rows of the edge list join the same ordered pair of entities. */
  lemma EdgeRowEndpointsDistinct()
    ensures forall i, j :: 0 <= i < j < |EdgeRows| ==>
      (EdgeRows[i].source, EdgeRows[i].target) != (EdgeRows[j].source, EdgeRows[j].target)
  {
  }

  /** Given distinct generated ids, every edge joins a different pair of node ids. */
  lemma EdgesDistinct(uuids: seq<string>, clock: seq<Timestamp>, i: nat, j: nat)
    requires |uuids| == EntityCount && Distinct(uuids) && |clock| == EdgeCount
    requires i < EdgeCount && j < EdgeCount && i != j
    ensures Edges(uuids, clock)[i].sourceNodeUuid != Edges(uuids, clock)[j].sourceNodeUuid
         || Edges(uuids, clock)[i].targetNodeUuid != Edges(uuids, clock)[j].targetNodeUuid
  {
    EdgeRowEndpointsDistinct();
    var a, b := EdgeRows[i], EdgeRows[j];
    assert (a.source, a.target) != (b.source, b.target) by {
      if i < j { } else { }
    }
    NodeIdsDistinct(uuids, a.source, b.source);
    NodeIdsDistinct(uuids, a.target, b.target);
  }

  /** Each of the 17 edges is carried by exactly one triplet, the one at its own index. */
  lemma EachEdgeInOneTriplet(uuids: seq<string>, clock: seq<Timestamp>, i: nat, j: nat)
    requires |uuids| == EntityCount && Distinct(uuids) && |clock| == EdgeCount
    requires i < EdgeCount && j < EdgeCount
    ensures Triplets(uuids, clock)[i].edge == Edges(uuids, clock)[j] <==> i == j
  {
    TripletsWellFormed(uuids, clock);
    if i != j {
      EdgesDistinct(uuids, clock, i, j);
    }
  }

  /** The triplet submits the node with id `id` as its source or its target. */
  predicate Mentions(t: Triplet, id: string) {
    t.source.uuid == id || t.target.uuid == id
  }

  /** A triplet in which `e` takes part. */
  function UseOf(e: Entity): (i: nat)
    ensures i < |Links| && (Links[i].source == e || Links[i].target == e)
  {
    match e
    case Claude => 0 case Anthropic => 0 case Gpt4 => 1 case OpenAI => 1 case Gemini => 2
    case Google => 2 case Dario => 4 case Sam => 5 case Sundar => 6 case Llama => 3
    case Meta => 3 case Mark => 7 case ConstitutionalAi => 8 case Transformer => 9
    case Attention => 12
  }

  /** Every one of the 15 nodes is submitted, as the source or the target of some triplet. */
  lemma EveryEntityUsed(uuids: seq<string>, clock: seq<Timestamp>, e: Entity)
    requires |uuids| == EntityCount && |clock| == EdgeCount
    ensures UseOf(e) < |Triplets(uuids, clock)|
    ensures Mentions(Triplets(uuids, clock)[UseOf(e)], Uuid(uuids, e))
  {
  }

  // ---------------------------------------------------------------------------
  // Progress labels: `Adding triplet {i+1}/17: {source.name} -> {target.name}`

  function Digit(d: nat): (c: char)
    requires d < 10
    ensures '0' <= c <= '9' && (c as int) - ('0' as int) == d
  {
    (('0' as int) + d) as char
  }

  /** Python's `str` of a non-negative int: shortest decimal numeral. */
  function Decimal(n: nat): (s: string)
    ensures |s| > 0 && forall k :: 0 <= k < |s| ==> '0' <= s[k] <= '9'
    ensures |s| > 1 ==> s[0] != '0'
  {
    if n < 10 then [Digit(n)] else Decimal(n / 10) + [Digit(n % 10)]
  }

  /** The number a string of decimal digits denotes. */
  function DigitsValue(s: string): nat
    requires forall k :: 0 <= k < |s| ==> '0' <= s[k] <= '9'
  {
    if s == [] then 0 else DigitsValue(s[..|s| - 1]) * 10 + ((s[|s| - 1] as int) - ('0' as int))
  }

  /** Reading the numeral back gives the number. */
  lemma {:induction false} DecimalValue(n: nat)
    ensures DigitsValue(Decimal(n)) == n
  {
    if n >= 10 {
      DecimalValue(n / 10);
      var s := Decimal(n);
      assert s[..|s| - 1] == Decimal(n / 10);
    }
  }

  /** The total the loader prints, written as a literal in the source. */
  const ProgressTotal := "17"

  function ProgressLabel(i: nat, t: Triplet): string {
    "Adding triplet " + Decimal(i + 1) + "/" + ProgressTotal + ": " + t.source.name + " -> " + t.target.name
  }

  /** The labels printed while the triplets `ts` are submitted one by one. */
  function ProgressLabels(ts: seq<Triplet>): (ls: seq<string>)
    ensures |ls| == |ts|
    ensures forall i :: 0 <= i < |ts| ==> ls[i] == ProgressLabel(i, ts[i])
  {
    seq(|ts|, i requires 0 <= i < |ts| => ProgressLabel(i, ts[i]))
  }

  /** The hard-coded total is the length of the triplet list, so the last label reads `17/17`. */
  lemma ProgressTotalIsTripletCount(uuids: seq<string>, clock: seq<Timestamp>)
    requires |uuids| == EntityCount && |clock| == EdgeCount
    ensures ProgressTotal == Decimal(|Triplets(uuids, clock)|)
    ensures DigitsValue(ProgressTotal) == |Triplets(uuids, clock)|
  {
    assert Decimal(17) == Decimal(1) + [Digit(7)];
    DecimalValue(17);
  }

  /**
   * The session the loader talks to: the triplets `add_triplet` has received,
   * in order, and the lines printed so far.
   */
  class GraphSession {
    var submitted: seq<Triplet>
    var printed: seq<string>

    constructor ()
      ensures submitted == [] && printed == []
    {
      submitted := [];
      printed := [];
    }

    method Print(line: string)
      modifies this
      ensures printed == old(printed) + [line] && submitted == old(submitted)
    {
      printed := printed + [line];
    }

    method AddTriplet(source: EntityNode, edge: EntityEdge, target: EntityNode)
      modifies this
      ensures submitted == old(submitted) + [Triplet(source, edge, target)] && printed == old(printed)
    {
      submitted := submitted + [Triplet(source, edge, target)];
    }
  }

  /** The `for i, (source, edge, target) in enumerate(triplets)` loop. */
  method AddAll(session: GraphSession, ts: seq<Triplet>)
    modifies session
    ensures session.submitted == old(session.submitted) + ts
    ensures session.printed == old(session.printed) + ProgressLabels(ts)
  {
    var i := 0;
    while i < |ts|
      invariant 0 <= i <= |ts|
      invariant session.submitted == old(session.submitted) + ts[..i]
      invariant session.printed == old(session.printed) + ProgressLabels(ts[..i])
    {
      var t := ts[i];
      session.Print(ProgressLabel(i, t));
      session.AddTriplet(t.source, t.edge, t.target);
      assert ts[..i + 1] == ts[..i] + [t];
      assert ProgressLabels(ts[..i + 1]) == ProgressLabels(ts[..i]) + [ProgressLabel(i, t)];
      i := i + 1;
    }
    assert ts[..i] == ts;
  }

  // ---------------------------------------------------------------------------
  // Configuration (module level of the script)

  const UriKey := "NEO4J_URI"
  const UserKey := "NEO4J_USER"
  const PasswordKey := "NEO4J_PASSWORD"
  const DefaultUri := "bolt://localhost:7687"
  const DefaultUser := "neo4j"
  const DefaultPassword := "password"
  const ConfigError := "NEO4J_URI, NEO4J_USER, and NEO4J_PASSWORD must be set"

  datatype Neo4jConfig = Neo4jConfig(uri: string, user: string, password: string)

  datatype ConfigResult = Loaded(config: Neo4jConfig) | ValueError(message: string)

  /** `os.environ.get(key, default)`. */
  function EnvGet(env: map<string, string>, key: string, default: string): (v: string)
    ensures key in env ==> v == env[key]
    ensures key !in env ==> v == default
  {
    if key in env then env[key] else default
  }

  /** True when `key` is set, but to the empty string. */
  predicate SetEmpty(env: map<string, string>, key: string) {
    key in env && env[key] == ""
  }

  /**
   * The connection parameters, read with their defaults; a parameter that is
   * set but empty raises ValueError.
   */
  function LoadConfig(env: map<string, string>): (r: ConfigResult)
    ensures r.ValueError? <==> SetEmpty(env, UriKey) || SetEmpty(env, UserKey) || SetEmpty(env, PasswordKey)
    ensures r.ValueError? ==> r.message == ConfigError
    ensures r.Loaded? ==> r.config.uri != "" && r.config.user != "" && r.config.password != ""
    ensures r.Loaded? ==>
      && r.config.uri == (if UriKey in env then env[UriKey] else DefaultUri)
      && r.config.user == (if UserKey in env then env[UserKey] else DefaultUser)
      && r.config.password == (if PasswordKey in env then env[PasswordKey] else DefaultPassword)
  {
    var uri := EnvGet(env, UriKey, DefaultUri);
    var user := EnvGet(env, UserKey, DefaultUser);
    var password := EnvGet(env, PasswordKey, DefaultPassword);
    if uri == "" || user == "" || password == "" then ValueError(ConfigError)
    else Loaded(Neo4jConfig(uri, user, password))
  }

  /** With nothing set, the script connects to the local default database. */
  lemma DefaultConfig()
    ensures LoadConfig(map[]) == Loaded(Neo4jConfig(DefaultUri, DefaultUser, DefaultPassword))
  {
  }

  // ---------------------------------------------------------------------------
  // Center-node queries and displayed results

  datatype CenterQuery = CenterQuery(description: string, query: string, centerUuid: string, centerName: string)

  /** The entity each center query focuses on, in order. */
  const CenterEntities: seq<Entity> := [Claude, OpenAI, Transformer, Dario]

  function CenterQueries(uuids: seq<string>): seq<CenterQuery>
    requires |uuids| == EntityCount
  {
    [ CenterQuery("AI competition analysis", "Who competes with whom in AI?", Uuid(uuids, Claude), "Claude"),
      CenterQuery("OpenAI connections", "What connections does OpenAI have?", Uuid(uuids, OpenAI), "OpenAI"),
      CenterQuery("Transformer technology", "What uses Transformer architecture?", Uuid(uuids, Transformer),
                  "Transformer Architecture"),
      CenterQuery("Leadership analysis", "Who leads AI companies?", Uuid(uuids, Dario), "Dario Amodei") ]
  }

  /** Each center query names the id and the name of one of the graph's nodes (see `Node`). */
  lemma CenterQueriesNameNodes(uuids: seq<string>)
    requires |uuids| == EntityCount
    ensures |CenterQueries(uuids)| == |CenterEntities|
    ensures forall i :: 0 <= i < |CenterEntities| ==>
      CenterQueries(uuids)[i].centerUuid == Uuid(uuids, CenterEntities[i]) &&
      CenterQueries(uuids)[i].centerName == Name(CenterEntities[i])
  {
  }

  const BasicLimit := 3
  const CenterLimit := 4
  const MultiHopLimit := 3

  /** `results[:limit]`: the results that get printed. */
  function Shown<T>(results: seq<T>, limit: nat): (r: seq<T>)
    ensures |r| <= limit && |r| <= |results|
    ensures |r| == limit || |r| == |results|
    ensures r == results[..|r|]
  {
    if |results| <= limit then results else results[..limit]
  }

  /**
   * At most three results are printed for a basic or multi-hop query and at most
   * four for a center query; fewer only when the search returned fewer.
   */
  lemma ShownLimits<T>(results: seq<T>)
    ensures |Shown(results, BasicLimit)| == if |results| < 3 then |results| else 3
    ensures |Shown(results, CenterLimit)| == if |results| < 4 then |results| else 4
    ensures |Shown(results, MultiHopLimit)| == if |results| < 3 then |results| else 3
  {
  }
}
