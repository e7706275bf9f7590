# medirag: access-controlled federated retrieval, modelled in Dafny

medirag answers clinical questions with retrieval-augmented generation over
records held by several hospitals. Each hospital keeps its own retrieval tree.
- A **leaf** owns one department's similarity index.
- A **router** fans a query out to its children.
- A **root** on the client side sends the query to every hospital and merges
  the answers.

Every leaf and router has a **gate** ("right to search"). The gate is a set of
attribute-based access-control policies evaluated on the user's OpenID
Connect claims. When the gate denies, the node answers `[]` without
searching. A leaf also checks each hit against its **document policies**
("right to retrieve"). It stamps every admitted document with its own metadata
(`org`, `dept_id`). Every node ends with the same merge: a stable sort by
descending score, cut to `k`.

The project models the following:
- the three node kinds and the baseline retriever
  (`FederatedRetriever`, `Merge`, `VectorStoreWithScores`);
- the allow-overrides policy evaluator (`Abac`);
- the policy data of hospitals A, B and C (`HospitalAPolicy`,
  `HospitalBPolicy`, `HospitalCPolicy`);
- hospital C's tree wiring (`HospitalCBlueprint`);
- which departments each evaluation user can reach (`AccessFacts`);
- the data preparation: sentence splitting, chunk packing, metadata prefixes
  (`Util`) and the all-columns row loader (`FullDfLoader`);
- the answer chain (`Pipeline`);
- the evaluation helpers (`Evaluation`);
- the balanced tree builder of the scalability experiment (`Scalability`);
- the OpenID Connect claims the identity provider issues (`Oidc`).

The similarity indexes, the named-entity recogniser, the peer hospitals, the
CSV reader and the language model are function-typed parameters. The model
states what the code does with their answers.

Imperative code stays imperative, and each method is proved equal to a
specification function:
- the leaf's document loop, the router's child loop and the root's drain loop;
- the packing loop and the in-place rewrite of `prefix_metadata` over an `array`;
- the scalability builder's pairing rounds.

The root keeps `search_kwargs` as a field of a class, because the source
rewrites it on every call.

In a few places the code behaves in a way a reader may not expect; the
model follows the code:
- **A failing peer aborts the whole root query.** `RootRetriever._retrieve`
  swallows the exception and returns `None`, and `docs.extend(None)` then
  raises (core/federated_retriever.py:217-220 and 246). The model makes the
  root's result an error exactly when some peer fails
  (`FederatedRetriever.RootFailsIffSomePeerFails`).
- **B.nurse also reaches hospital A's admissions.** The comment next to
  B.nurse says "access to all of B". Hospital A's admissions policy 2 also
  admits B nurses, so `AccessFacts.BNurseReach` proves reach to A's
  admissions too. The other seven comments agree with the policies.
- **An empty metadata column list gives "For patient wit: ".** With no
  metadata columns, `prefix[:-2]` cuts into "with " itself
  (`Util.PrefixOfSpec`).

The assumed policy semantics are:
- a request is allowed iff some `allow` policy matches it;
- a rule map constrains only the keys it names, and an attribute that is
  missing fails its condition;
- the list of action rules is a set of alternatives.

## Model

| member | source | states |
|---|---|---|
| Abac.AllowOverridesSpec | orgs/hospitalC/hosp_bp.py:36-38 | allow-overrides allows iff some policy in the list grants the request; default deny |
| Abac.AllowOverridesOrderIndependent | orgs/hospitalC/hosp_bp.py:35-38 | the decision does not depend on the order policies were added to storage |
| Abac.DefaultDeny | orgs/hospitalC/hosp_bp.py:36-38 | a list with no allow policy denies every request |
| Abac.AllowOverridesAppend | orgs/hospitalC/hosp_bp.py:36-38 | the decision over a concatenation is the disjunction of the decisions |
| Abac.MoreSubjectAttributesNeverRevoke | core/federated_retriever.py:137-153 | a subject with extra attributes (same values) is allowed wherever the smaller one is |
| HospitalAPolicy.AllowAllAllowsEveryRead | orgs/hospitalA/access_policy.py:5-19 | ALLOW_ALL allows every read of every resource by every subject |
| HospitalAPolicy.OrgGate | orgs/hospitalA/access_policy.py:26-40 | the org gate allows iff org is A or B |
| HospitalAPolicy.AdmissionsGate | orgs/hospitalA/access_policy.py:46-79 | admissions: dept_id admissions and (A physician/nurse/admin or B physician/nurse), both directions |
| HospitalAPolicy.MedicineGate | orgs/hospitalA/access_policy.py:81-114 | medicine: dept_id medicine and (A physician/nurse or B physician); an A admin is denied |
| HospitalAPolicy.OrthopaedicsGate | orgs/hospitalA/access_policy.py:116-166 | orthopaedics: A physician/nurse, A technician with dept radiology, or B physician |
| HospitalAPolicy.PsychiatryGate | orgs/hospitalA/access_policy.py:168-218 | psychiatry: A physician/nurse/psychologist, A technician with dept psychiatry, or B physician; B nurses denied |
| HospitalAPolicy.SurgeryGate | orgs/hospitalA/access_policy.py:220-253 | surgery: A physician/nurse or B physician |
| HospitalAPolicy.DeptMaps | orgs/hospitalA/access_policy.py:256-272 | both maps have the same five departments and every document check allows everything |
| HospitalAPolicy.GateRequiresOwnDept | orgs/hospitalA/access_policy.py:46-253 | a department's gate put on a node with another dept_id denies everyone |
| HospitalBPolicy.AllowAllAllowsEveryRead | orgs/hospitalB/access_policy.py:5-19 | ALLOW_ALL allows every read |
| HospitalBPolicy.OrgGate | orgs/hospitalB/access_policy.py:26-40 | the org gate allows iff org is A or B |
| HospitalBPolicy.AdmissionsGate | orgs/hospitalB/access_policy.py:46-79 | admissions: B physician/nurse/admin or A physician/nurse; an A admin is denied |
| HospitalBPolicy.CardiologyGate | orgs/hospitalB/access_policy.py:81-98 | cardiology: org in {A,B} and role in {physician, nurse} |
| HospitalBPolicy.MedicineGate | orgs/hospitalB/access_policy.py:100-117 | medicine: org in {A,B} and role in {physician, nurse} |
| HospitalBPolicy.DeptMaps | orgs/hospitalB/access_policy.py:120-132 | both maps have exactly admissions, medicine, cardiology, and document checks allow everything |
| HospitalCPolicy.AllowAllAllowsEveryRead | orgs/hospitalC/access_policy.py:5-19 | ALLOW_ALL allows every read |
| HospitalCPolicy.OrgGate | orgs/hospitalC/access_policy.py:26-40 | the org gate allows iff org is A or C, so every B subject is denied |
| HospitalCPolicy.DeptGate | orgs/hospitalC/access_policy.py:42-76 | C physician/nurse/technician/researcher, or an A physician whose affiliations include C_neuro; a C student is denied |
| HospitalCPolicy.DeptGatesAgree | orgs/hospitalC/access_policy.py:83-93 | both maps have the two departments, and the two gates decide alike for every subject and resource |
| HospitalCPolicy.DocumentChecksAllowAll | orgs/hospitalC/access_policy.py:90-93 | no document check at C drops anything |
| HospitalCBlueprint.DeptRetriever | orgs/hospitalC/hosp_bp.py:29-56 | a department leaf: id and db path from the department, text column None iff admissions, gate and document policies from the two maps, metadata {org: C, dept_id} |
| HospitalCBlueprint.OrgRetriever | orgs/hospitalC/hosp_bp.py:58-67 | the org router: id C, the children as given, gate ORG_POLICIES, metadata {org: C, depts} |
| HospitalCBlueprint.BuildChildRetrievers | orgs/hospitalC/hosp_bp.py:28-56 | one leaf per department, in DEPTS order, each over the CSV read from data/<dept>.csv |
| HospitalCBlueprint.BuildOrgRetriever | orgs/hospitalC/hosp_bp.py:28-67 | the module-level tree is the org router over the admissions and neurology leaves |
| HospitalCBlueprint.ApiRetrieve | orgs/hospitalC/hosp_bp.py:70-79 | /api/retrieve answers the router's documents, in its order, and echoes the query |
| HospitalCBlueprint.OutsidersGetNothing | orgs/hospitalC/hosp_bp.py:58-67 | with access control on, a subject outside A and C gets [] whatever the indexes hold |
| HospitalCBlueprint.DeptGateKeepsOut | orgs/hospitalC/hosp_bp.py:33-38 | a subject failing C's department gate gets [] from the whole tree |
| HospitalCBlueprint.AnswersAreStamped | orgs/hospitalC/hosp_bp.py:54 | with access control on, every answered document carries org C and a dept_id among DEPTS |
| AccessFacts.ReachesAIff | orgs/hospitalA/access_policy.py:26-253 | passing A's org gate and a department's gate is equivalent to a flat attribute table, both directions |
| AccessFacts.ReachesBIff | orgs/hospitalB/access_policy.py:26-117 | the same for hospital B |
| AccessFacts.ReachesCIff | orgs/hospitalC/access_policy.py:26-76 | the same for hospital C |
| AccessFacts.APhysReach | eval/evaluation.py:38 | A.phys reaches exactly every department of A and B and none of C |
| AccessFacts.APhysNeurReach | eval/evaluation.py:39 | A.phys.neur reaches every department of A, B and C |
| AccessFacts.ATechRadReach | eval/evaluation.py:40 | A.tech.rad reaches only A's orthopaedics; C's org gate allows it, yet it reaches no C department |
| AccessFacts.AAdminReach | eval/evaluation.py:41 | A.admin reaches only A's admissions |
| AccessFacts.ANurseReach | eval/evaluation.py:42 | A.nurse reaches exactly every department of A and B |
| AccessFacts.BPhysReach | eval/evaluation.py:43 | B.phys reaches exactly every department of A and B |
| AccessFacts.BNurseReach | eval/evaluation.py:44 | B.nurse reaches every department of B and also A's admissions |
| AccessFacts.CResearchReach | eval/evaluation.py:45 | C.research reaches exactly the departments of C |
| Merge.SortPermutes | core/federated_retriever.py:160 | the score sort is a permutation of its input |
| Merge.SortSorts | core/federated_retriever.py:160 | the score sort is non-increasing by score |
| Merge.SortStable | core/federated_retriever.py:160 | documents of equal score keep their input order |
| Merge.SortOfSorted | core/federated_retriever.py:160 | sorting an already sorted list changes nothing |
| Merge.SortedSplit | core/federated_retriever.py:160 | cutting a sorted list gives a sorted head that outranks the tail, losing nothing |
| Merge.MergeTopKSpec | core/federated_retriever.py:160 | the cut has min(k, n) documents, is sorted, is a sub-multiset, and no dropped document outranks a kept one |
| Merge.MergeTopKLength | core/federated_retriever.py:202 | for k >= 0 the result has min(k, n) documents |
| Merge.MergeTopKStable | core/federated_retriever.py:202 | the kept documents of each score are a prefix of that score's documents in input order |
| Merge.MergeTopKIdempotent | core/federated_retriever.py:252 | merging a merged list again changes nothing |
| Merge.MergeTopKSubset | core/federated_retriever.py:252 | every kept document was in the input |
| Merge.MergeTopKBounded | core/federated_retriever.py:133 | the result is sorted and holds at most k documents |
| VectorStoreWithScores.WithScores | core/vectorstore_retriever_with_scores.py:17-19 | the store's hits in its order, each document carrying its similarity as score |
| VectorStoreWithScores.StampedFromUnique | core/vectorstore_retriever_with_scores.py:17-19 | the stamped list is determined by the hits |
| VectorStoreWithScores.GetRelevantDocuments | core/vectorstore_retriever_with_scores.py:7-22 | fails with the search type iff it is not similarity or similarity_score_threshold; otherwise stamps exactly the store's k hits |
| VectorStoreWithScores.StampedMetadata | core/vectorstore_retriever_with_scores.py:18 | metadata["score"] is the similarity, the page and other keys are unchanged |
| Values.FullMetadata | core/vectorstore_retriever_with_scores.py:18 | a stored document's metadata is its own map with "score" set to its score |
| Values.PathJoin | orgs/hospitalC/hosp_bp.py:30-31 | os.path.join inserts "/" unless the head is empty or ends with one |
| FederatedRetriever.IsSecure | core/federated_retriever.py:92 | secure defaults to true when the key is absent |
| FederatedRetriever.BuildFilter | core/federated_retriever.py:116-128 | a filter exists iff filters is present and non-empty, with one MatchAny condition on metadata.<attr> per attribute, in order |
| FederatedRetriever.Stamp | core/federated_retriever.py:155 | the node's keys overwrite the document's, other keys and the score are kept |
| FederatedRetriever.FilterAccessible | core/federated_retriever.py:135-158 | the document loop keeps, stamped and in order, exactly the documents the policies allow |
| FederatedRetriever.KeepMappedMembers | core/federated_retriever.py:135-158 | the kept-and-mapped list holds exactly the images of the kept items |
| FederatedRetriever.AdmitSpec | core/federated_retriever.py:136-156 | a document is returned iff it is a hit allowed on its own unstamped metadata, stamped with the node's metadata |
| FederatedRetriever.LeafGetRelevantDocuments | core/federated_retriever.py:86-160 | a denied gate gives []; otherwise the merge of the allowed, stamped fetch_k hits, or of all hits when insecure or without document policies |
| FederatedRetriever.RouterGetRelevantDocuments | core/federated_retriever.py:168-202 | a denied gate gives []; otherwise the merge of the children's answers concatenated in child order |
| FederatedRetriever.RetrieveBounded | core/federated_retriever.py:133-202 | every node's answer is sorted by score and holds at most k documents |
| FederatedRetriever.Unguarded | core/federated_retriever.py:110-133 | the tree with every gate and document check removed, same shape and stores |
| FederatedRetriever.InsecureIgnoresAccess | core/federated_retriever.py:110-133 | with secure false the answer equals the unguarded tree's for any user: no check is consulted |
| FederatedRetriever.InsecureGathered | core/federated_retriever.py:190-197 | with secure false a router's concatenated child answers ignore every check |
| FederatedRetriever.RetrieveSourced | core/federated_retriever.py:195-197 | every answered document comes from some leaf's answer under an open gate path |
| FederatedRetriever.GatheredSourced | core/federated_retriever.py:195-197 | every gathered document comes from one of the children asked so far |
| FederatedRetriever.SourcedLeafStamped | core/federated_retriever.py:153-156 | a document from a secure leaf with document policies carries the leaf's metadata values |
| FederatedRetriever.RouterAnswersStamped | core/federated_retriever.py:195-202 | over such leaves, every document a router answers carries one leaf's value for the key |
| FederatedRetriever.DeniedGateSkipsSearch | core/federated_retriever.py:110-112 | a denied gate answers [] whatever the indexes hold |
| FederatedRetriever.LastIndexOf | core/federated_retriever.py:232 | rfind: the position of the last occurrence of the character |
| FederatedRetriever.TrimName | core/federated_retriever.py:232 | the name is a prefix of the entity text cut at its last apostrophe, unchanged without one |
| FederatedRetriever.PersonNamesSpec | core/federated_retriever.py:232 | the names are exactly the trimmed texts of PERSON entities; none iff no PERSON entity |
| FederatedRetriever.NameFilters | core/federated_retriever.py:233-235 | filters gets a name entry iff some name was found |
| FederatedRetriever.FetchDocs | core/federated_retriever.py:210-220 | a peer's docs ([] when absent), or None on a connection error, an error status, a non-object body or a null "docs" |
| FederatedRetriever.FetchAll | core/federated_retriever.py:237-241 | every peer is asked once with the same params |
| FederatedRetriever.DrainSpec | core/federated_retriever.py:243-246 | the drain succeeds iff no popped result is None, and then holds exactly the popped peers' documents |
| FederatedRetriever.DrainErrSticks | core/federated_retriever.py:244-246 | once extending raised, later peers do not change the outcome |
| FederatedRetriever.FetchEach | core/federated_retriever.py:238-240 | one reply per peer URI, each read as that peer's docs, in URI order |
| FederatedRetriever.DrainInOrder | core/federated_retriever.py:243-246 | the outcome of extending with each popped reply in turn, raising at the first failed peer |
| FederatedRetriever.RootFailsIffSomePeerFails | core/federated_retriever.py:243-252 | the root errs iff some peer failed, whatever the pop order; otherwise it merges every peer's documents |
| FederatedRetriever.RootRetriever.constructor | core/federated_retriever.py:205-208 | stores the uris, the user's claims and the search arguments |
| FederatedRetriever.RootRetriever.GetRelevantDocuments | core/federated_retriever.py:223-263 | resets filters to the name filter of the query, then answers the merge of all peers' docs or the error |
| FederatedRetriever.BaselineRetriever.constructor | core/federated_retriever.py:271-276 | stores the documents, path, search arguments and checks |
| FederatedRetriever.BaselineRetriever.GetRelevantDocuments | core/federated_retriever.py:296-374 | a denied gate gives [] and leaves the arguments alone; otherwise sets the name filter and merges the allowed hits |
| Pipeline.RootSearchKwargs | app/pipeline.py:21-32 | the root receives k 10, fetch_k 20, no filters and the given secure flag |
| Pipeline.Prompt | app/pipeline.py:15-19 | the template holds the context right after its head and ends with the question |
| Pipeline.RenderedPrompt | app/pipeline.py:49 | the returned prompt is the filled template behind the "Human: " role label |
| Pipeline.PageContents | app/pipeline.py:27 | each document's page content, in order |
| Pipeline.FormatDocsShowsEveryDoc | app/pipeline.py:26-27 | the joined context contains every document's page content |
| Pipeline.MessageShowsEveryDoc | app/pipeline.py:34-42 | the filled template the model reads contains every retrieved document's page content |
| Pipeline.PromptShowsEveryDoc | app/pipeline.py:49 | the rendered prompt contains every retrieved document's page content |
| Pipeline.NoDocsEmptyContext | app/pipeline.py:26-27 | no documents give the empty context |
| Pipeline.CreateRagChainWithSource | app/pipeline.py:29-32 | a fresh root over the uris and claims, with its own copy of the search arguments |
| Pipeline.Invoke | app/pipeline.py:44-50 | the root's error propagates; otherwise the documents are the root's answer unchanged, the returned prompt is the rendered "Human: " message formatted from them, and the answer is the model's reply to the filled template |
| Util.JoinGroups | core/util.py:34-39 | each chunk text is the space-join of its group |
| Util.PackStepTiles | core/util.py:32-37 | one loop step keeps closed chunks plus current equal to the sentences seen |
| Util.PackStepLimits | core/util.py:32-37 | one loop step keeps every multi-sentence group within 800 |
| Util.PackStepEmptyOnlyFirst | core/util.py:33-35 | one loop step keeps the only empty chunk the one closed by an over-long first sentence |
| Util.PackStepKeeps | core/util.py:32-37 | one loop step preserves the packing invariant |
| Util.PackedInvariant | core/util.py:30-37 | the packing invariant holds after the loop |
| Util.GroupsPreserveOrder | core/util.py:30-40 | the chunks' sentence lists concatenated give the row's sentences |
| Util.GroupsWithinLimit | core/util.py:9 | a chunk of two or more sentences totals at most 800 characters, spaces not counted |
| Util.GroupsEmptyOnlyFirst | core/util.py:33-35 | a chunk is empty iff it is the first and the first sentence alone exceeds 800 |
| Util.GroupsEmptyIff | core/util.py:38-39 | no chunks iff no sentences; an over-long first sentence emits "" first |
| Util.PackChunks | core/util.py:30-39 | the packing loop computes the specified chunks |
| Util.ReplaceColumn | core/util.py:42 | the row with only the given column's value replaced |
| Util.ChunkedRows | core/util.py:41-43 | one row per chunk, every other column copied, chunk_col the chunk, text_index 0..m-1 appended |
| Util.ChunkDfRowsErrSticks | core/util.py:25-28 | the first failing row's error is the result |
| Util.NoSentencesNoRows | core/util.py:38-43 | a row with no sentences contributes no rows |
| Util.AppendChunkedRows | core/util.py:41-43 | the inner loop appends the row's chunked rows in order |
| Util.ChunkDf | core/util.py:21-45 | the output table has the input columns plus text_index and the chunked rows of every row in order, or the first row's error |
| Util.KeptFieldsCases | core/util.py:51 | fields 3, 4 and 6 onward are kept; three or fewer fields keep none |
| Util.Condensed | core/util.py:51 | kept fields have no newline and are not blank |
| Util.CondensedSingle | core/util.py:51 | a blank field is dropped; any other field is kept with its newlines turned into spaces |
| Util.CondensedAppend | core/util.py:51 | fields are condensed one by one and in order: condensing a + b gives condensed a, then condensed b |
| Util.CondensedMembers | core/util.py:51 | a string is kept iff it is some non-blank field with its newlines turned into spaces |
| Util.SentenceEndFrom | core/util.py:52-55 | the first position ending a "." after a non-digit |
| Util.FindSentencesSpec | core/util.py:52-55 | the matches are shortest sentences tiling a prefix of the field, and the rest holds no sentence end |
| Util.SentencesEndWithPeriod | core/util.py:54-59 | every extracted sentence ends with "." |
| Util.UnterminatedField | core/util.py:56-57 | a field with no sentence end yields field + "." |
| Util.MetadataColumns | core/util.py:98-100 | metadata_cols, or every column except chunk_col and skip_cols when it is None |
| Util.Without | core/util.py:100 | the columns not in the drop list |
| Util.WithoutAppend | core/util.py:100 | dropping works column by column, so the kept columns keep the order of df.columns |
| Util.Descriptions | core/util.py:104-105 | one description per metadata column; content and errors fixed by the three lemmas below |
| Util.DescriptionsOk | core/util.py:104-105 | the descriptions exist iff every metadata column is in the row |
| Util.DescriptionsContent | core/util.py:104-105 | the i-th description is f"{mc} of {row[mc]}" for the i-th metadata column |
| Util.DescriptionsErr | core/util.py:104-105 | a failure is the KeyError of the first metadata column missing from the row |
| Util.AccumulatedJoin | core/util.py:103-105 | the accumulated prefix is the head, the ", "-join and a trailing ", " |
| Util.PrefixOfSpec | core/util.py:103-106 | the prefix is "For patient with " + ", "-join + ": ", or "For patient wit: " with no columns |
| Util.PrefixedRowSpec | core/util.py:102-108 | other columns are kept and the text becomes prefix + old text |
| Util.BuildPrefix | core/util.py:103-106 | the loop builds the specified prefix or the first missing column's error |
| Util.DescriptionsErrSticks | core/util.py:104-105 | the first missing column's error is final |
| Util.RewriteRow | core/util.py:103-108 | one row is rewritten as specified, or fails with the first error Python raises |
| Util.PrefixMetadata | core/util.py:92-108 | rows are rewritten in place in order; on an error, the rows before it are rewritten and the rest untouched |
| FullDfLoader.ContentLines | core/full_df_loader.py:48-52 | at most one line per column; the lemmas below fix its content and order exactly |
| FullDfLoader.ContentLinesSingle | core/full_df_loader.py:48-52 | one cell gives its "k: v" line, or nothing when its column is a metadata column |
| FullDfLoader.ContentLinesAppend | core/full_df_loader.py:48-52 | the lines of a + b are those of a followed by those of b, so column order is kept |
| FullDfLoader.ContentLinesSource | core/full_df_loader.py:48-52 | every line is the "k: v" line of some non-metadata cell |
| FullDfLoader.ContentLinesMembers | core/full_df_loader.py:48-52 | a line is in the content iff it is the "k: v" line of a non-metadata cell, so no metadata column contributes one |
| FullDfLoader.ContentLinesSpec | core/full_df_loader.py:48-52 | every non-metadata column contributes its "k: v" line |
| FullDfLoader.ContentLinesAllMetadata | core/full_df_loader.py:48-52 | with every column metadata the content is empty |
| FullDfLoader.PageContentShowsColumn | core/full_df_loader.py:48-52 | the page content contains every non-metadata column with its value |
| FullDfLoader.Source | core/full_df_loader.py:39-47 | "DataFrame" without a source column, else the row's value, a missing column being an error |
| FullDfLoader.AddColumnsOk | core/full_df_loader.py:55-59 | adding metadata columns succeeds iff every column exists |
| FullDfLoader.AddColumnsKeys | core/full_df_loader.py:54-59 | the keys are source, row and the metadata columns |
| FullDfLoader.AddColumnsColumn | core/full_df_loader.py:56-57 | each metadata column holds the row's value |
| FullDfLoader.AddColumnsBase | core/full_df_loader.py:54-57 | base entries not overwritten by a column are kept |
| FullDfLoader.AddColumnsErrKind | core/full_df_loader.py:58-59 | a failure is a missing metadata column |
| FullDfLoader.CollectSpec | core/full_df_loader.py:63-65 | the list succeeds iff every row's document does, keeping the documents in order |
| FullDfLoader.LoadOnePerRow | core/full_df_loader.py:34-65 | load succeeds iff every row does and returns one document per row in order |
| FullDfLoader.RowDocumentSpec | core/full_df_loader.py:37-61 | page content is the "\n"-join of the non-metadata cells; metadata is source, row index and the metadata columns |
| FullDfLoader.RowDocumentErrors | core/full_df_loader.py:39-59 | a missing source column or metadata column is an error of that kind |
| Evaluation.EvalPairs | eval/evaluation.py:47 | the first pair is (centralized_insecure, federated_insecure), then one secure pair per user in order |
| Evaluation.ShortenTwo | eval/evaluation.py:128-130 | two parts give their first letters |
| Evaluation.ShortenThree | eval/evaluation.py:128-130 | three parts give the first letters plus "." and the third part |
| Evaluation.ShortenSecure | eval/evaluation.py:128-130 | federated_secure_<name> shortens to fs.<name> |
| Evaluation.EvalPairsShortNames | eval/evaluation.py:147-149 | each user's scenario column is fs.<name>, distinct names giving distinct columns |
| Evaluation.HospDfs | eval/evaluation.py:49-54 | one (dept != admissions, CSV) pair per department, in order |
| Evaluation.DocKey | eval/evaluation.py:122 | a key exists unless org is present and not a string |
| Evaluation.DocKeyCases | eval/evaluation.py:122 | for any metadata holding the keys named: note_id:text_index for notes, <org>-adm:<row> for admissions rows, x-adm:<row> without org |
| Evaluation.NoteKey | eval/evaluation.py:122 | a note's key is its note_id, ":" and its text_index, whatever else the metadata holds |
| Evaluation.AdmissionKey | eval/evaluation.py:122 | without note_id and text_index, the key is the organisation's name (default "x") with "-adm", ":" and the row |
| Evaluation.DocKeys | eval/evaluation.py:118-122 | at most one key per document |
| Evaluation.DocKeysSome | eval/evaluation.py:118-122 | the key set exists iff every document has a key |
| Evaluation.DocKeysMembers | eval/evaluation.py:118-122 | the set holds exactly the documents' keys |
| Evaluation.RetrievedDocKeys | eval/evaluation.py:118-122 | the loop builds that key set |
| Evaluation.KeySetSome | eval/evaluation.py:118-122 | the set of keys exists iff no key is missing |
| Evaluation.KeySetMembers | eval/evaluation.py:118-122 | the set holds exactly the present keys |
| Evaluation.KeySetNoneSticks | eval/evaluation.py:119-122 | once a key raises, the whole set fails |
| Evaluation.EncodeDocs | eval/evaluation.py:124 | the cell is bracketed |
| Evaluation.DecodeDocs | eval/evaluation.py:154-155 | the decoded set is never empty |
| Evaluation.SplitJoin | eval/evaluation.py:154 | splitting the ","-join of comma-free keys gives them back |
| Evaluation.EncodeDecode | eval/evaluation.py:124 | decoding the cell of a non-empty comma-free key list gives its set |
| Evaluation.EmptyDecodesToBlank | eval/evaluation.py:154-157 | an empty set encodes as "[]" and decodes to {""} |
| Evaluation.IntersectionRatio | eval/evaluation.py:156-157 | the ratio lies in [0, 1] |
| Evaluation.RatioOfCells | eval/evaluation.py:154-157 | the reference set is never empty, so the ratio is the shared share and the 1.0 fallback is unreachable |
| Evaluation.ComputeDocIntersection | eval/evaluation.py:146-160 | one ratio per row, each the intersection ratio of the decoded cells and within [0, 1] |
| Scalability.PartStartBounds | eval/scalability/scalability.py:30 | part starts are ordered and within the input; part i is len / n long, one longer for the first len % n parts |
| Scalability.ArraySplit | eval/scalability/scalability.py:30 | exactly n parts |
| Scalability.ArraySplitSizes | eval/scalability/scalability.py:30 | part i has len/n rows, one more for the first len % n |
| Scalability.ArraySplitPartition | eval/scalability/scalability.py:30 | the parts concatenated give the input |
| Scalability.SplitTable | eval/scalability/scalability.py:30 | n tables with the input's columns over the split rows |
| Scalability.LeafLevel | eval/scalability/scalability.py:38 | one leaf per part with id f"{n}{d}{i}{j}" and path qdrant/n/d/i/j |
| Scalability.Paired | eval/scalability/scalability.py:43-46 | half as many routers, router m over level[2m] and level[2m+1] |
| Scalability.Rounds | eval/scalability/scalability.py:40-48 | after d rounds exactly one node remains |
| Scalability.PairUp | eval/scalability/scalability.py:42-46 | the inner loop builds the paired level |
| Scalability.BuildOrgRoot | eval/scalability/scalability.py:39-49 | the round loop ends with the single root of the rounds |
| Scalability.PairedKeepsLeaves | eval/scalability/scalability.py:43-46 | pairing keeps the left-to-right leaf order |
| Scalability.RoundsKeepLeaves | eval/scalability/scalability.py:40-46 | all rounds keep the leaf order |
| Scalability.PairedBalanced | eval/scalability/scalability.py:43-46 | pairing trees balanced at depth t gives trees balanced at t + 1 |
| Scalability.RoundsBalanced | eval/scalability/scalability.py:40-48 | k rounds add k to the depth |
| Scalability.OrgRootShape | eval/scalability/scalability.py:38-49 | the org root is balanced at depth d and its leaves are leaf_nodes in order |
| Scalability.OrgLeaves | eval/scalability/scalability.py:36-38 | 2**d leaves per organisation |
| Scalability.OrgSubtreeShape | eval/scalability/scalability.py:31-49 | every subtree is balanced at depth d, with its part's rows split over its 2**d leaves in order |
| Scalability.BuildOrgSubtree | eval/scalability/scalability.py:36-49 | one turn of the organisation loop builds that organisation's specified subtree |
| Scalability.LeafLevelLeaves | eval/scalability/scalability.py:38 | a level of leaves has itself as its leaves |
| Scalability.GenOrgSubtrees | eval/scalability/scalability.py:27-58 | n org subtrees in part order, or an error iff n is zero or negative |
| Oidc.GenerateUserInfo | orgs/auth_skeleton/oidc.py:25-34 | sub is str(id) and name the username; with profile the four attributes are copied verbatim, otherwise no other key |
| Oidc.ProfileScopes | orgs/auth_skeleton/oidc.py:28 | "openid profile" qualifies by substring; "openid" alone does not |
| Oidc.ProfileNeverRevokes | orgs/auth_skeleton/oidc.py:28-32 | claims issued with profile are allowed wherever those without it are |
| Oidc.NoProfileNoOrg | orgs/auth_skeleton/oidc.py:25-34 | without profile the claims have no org key, and the org gates of A, B and C all deny them for any node |

## Left out

- py_abac itself (`PDP`, `AccessRequest.from_json`, `Policy.from_json`, `MemoryStorage`) is not part of this model. The allow-overrides evaluator of `Abac` states the assumed semantics.
- A `userinfo` of `None` is modelled as the empty map, which is what the request builder sends as the subject's attributes (`userinfo or {}`).
- A node's gate request sends `self.metadata or None` as the resource's attributes, so an empty or missing node metadata is sent as `None`. The model passes the empty map instead and assumes py_abac reads `None` as no attributes. No gated node in the system has empty metadata.
- Qdrant, the ClinicalBERT embeddings, the `cached_property` index build and LangChain's `to_json` are left out. The index is a parameter returning (document, score) pairs, and JSON transport is the identity on documents.
- The spaCy recogniser is a parameter returning entities; only the PERSON selection and the apostrophe trim are modelled.
- `ProcessPoolExecutor` and the unordered `done` set are left out. The drain order is a parameter: any permutation of the peers.
- HTTP via `requests`, the Flask routes, the OIDC and certificate routes, `create_scale_app`, `os.fork` and `app.run` are left out as network plumbing. A peer's reply is a parameter.
- Timing, the report files, logging and printing are left out as I/O.
- The language model is a parameter from the human message's content to the answer. The chat message objects, and the prompt template's own escaping, are not modelled.
- Similarity scores are integers: only their order matters, and float similarities are not modelled.
- Evaluation.IntersectionRatio: the ratio is an exact `real`, where the source stores the Python float `len(ixn) / len(ref_docs)`. Rounding is not modelled. The [0, 1] bound holds for the rounded float as well.
- `Values.Show`, the rendering of a cell as text, does not model Python's quoting and float formatting of values.
- FederatedRetriever.Stamp: a "score" key in a node's metadata is not applied to documents. No node in the system has one.
- A `search_kwargs` without "k" (a `KeyError` in the source) is not modelled: `k` is a field.
- The relative order of policies in `MemoryStorage` is not modelled. `Abac.AllowOverridesOrderIndependent` shows it does not matter.
- Hospitals A and B have no tree wiring in this model: their blueprints are not part of it. `AccessFacts` applies their policies to nodes wired as hospital C wires its own (org router metadata `{org}`, leaf metadata `{org, dept_id}`).
- The row index of `iterrows` is taken to be the row's position.
- `gen_org_subtrees` with a negative depth is not modelled: the depth is a `nat`.
- The sentence-splitter model takes the regular expression's `.` to match every character. Fields have had their newlines replaced before matching.
- `split_by_service` and `chunk_csv` read and write CSV files and are left out as file I/O.
- `eval_scenario`, `compute_metric`, the ROUGE/BLEU metrics and the evaluation scripts are left out as file I/O over floats. Only the helpers named in the table are modelled.
- The OIDC grant classes, the user database and the other modules of the authorisation server are left out. The user is a value.
