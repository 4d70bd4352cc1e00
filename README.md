# AI RFP Management System — a verified model of its core

The system lets a procurement manager do four things:

- create an RFP (a request for proposal), either from a form or by describing it in a chat that an AI model turns into fields;
- mail the RFP to selected vendors;
- receive each vendor's reply, have the AI extract the offered price, delivery, warranty and items, and store them as that vendor's proposal;
- ask the AI to compare the proposals and recommend one.

This project models that core in Dafny, in the form each part of the source has:

- **The FastAPI routes** (`backend/routers/*.py`) work against a shared database session.
  - That session is the class `Store.Database`: three maps from primary key to row, plus a per-table counter that supplies a key never used before in that table.
  - Every route is a method that `modifies` it. Each route states the response it returns for every error path, and the exact new contents of all three tables.
  - Every partial update is a loop of `setattr` calls. These are methods with loop invariants, proved against the functions `RfpPatched`, `VendorPatched` and `ProposalPatched`. Lemmas show that such an update writes exactly the columns it names.
- **The AI helpers** (`backend/ai_service.py`) are pure code around a remote call.
  - That code strips whitespace and code fences from the reply, prefixes every failure with a helper-specific message, and builds the per-proposal summary.
  - The completion and `json.loads` are parameters.
- **The mailer** (`backend/email_service.py`) checks the credentials, builds the subject and the plain-text body with a sequence of `+=`, and hands the message to the SMTP transport.
  - The body is built by imperative methods proved equal to the function `TextBody`.
  - The transport is a parameter.
- **The two React pages** (`RFPDetail.jsx` and `CreateRFP.jsx`) are the classes `RfpDetail.RfpDetailView` and `CreateRfp.ChatView`.
  - Their fields are the components' state variables.
  - Each handler is a method whose new state, and whose list of issued requests, equals a step function of the old state. The reply to every awaited call is a parameter.
  - Lemmas about the step functions state what the page promises. Examples: an enabled button always issues its request and is disabled while the request is outstanding; the chat history only ever grows, one user message paired with one answer.

The number a vendor's reply refers to comes from the request or from the pattern `RFP[:\s#]*(\d+)` in the subject. That search is modelled as a leftmost-match function, and two facts are proved about it:

- a subject "RFP #n…" yields `n`;
- the reply to the subject `send_rfp` mails ("Re: Request for Proposal: <title>") yields whatever the title alone yields. The outgoing subject does not carry the RFP's id, so a reply names an RFP only when the title itself contains "RFP <n>".

## Model

| member | source | states |
|---|---|---|
| Common.Slot.GetOr | backend/ai_service.py:146-152 | `d.get(key, default)`: the default replaces only a missing key; a key present with `None` stays `None` |
| Common.TrimSpec | frontend/src/components/CreateRFP.jsx:32 | the trimmed text is a slice of the input; everything cut off on either side is whitespace; the result starts and ends with a non-space character |
| Common.TrimEmptyIffBlank | frontend/src/components/CreateRFP.jsx:30 | `!text.trim()` holds exactly when every character of the input is whitespace |
| Common.TrimKeepsUnpadded | backend/ai_service.py:53 | a string with no whitespace at either end is its own strip |
| Common.TrimIdempotent | frontend/src/components/CreateRFP.jsx:32 | trimming twice is trimming once |
| Common.NatToStringRoundTrip | backend/routers/email.py:81 | `int()` of the decimal rendering of `n` is `n` |
| Common.IntToString | backend/email_service.py:56 | the rendering of an integer starts with '-' exactly when it is negative |
| Common.GroupedDigits | backend/email_service.py:53 | the `,` grouping of the amount, with its commas dropped, is the plain decimal rendering |
| Common.PythonMoney | backend/email_service.py:53 | `{:,.2f}` ends in '.' and the two-digit cents |
| Common.LocaleMoney | frontend/src/components/CreateRFP.jsx:51 | en-US `toLocaleString`: whole amounts have no fraction; other amounts are the grouped units, then '.' |
| Common.DistinctIffCardinality | backend/routers/email.py:29 | a list has as many distinct ids as entries exactly when it has no duplicate |
| Records.NewRfp | backend/routers/rfps.py:46 | a new RFP row holds the given fields under its key; status is "draft" (column default, backend/database.py line 81); the NOT NULL title is set |
| Records.NewVendor | backend/routers/vendors.py:22 | a new vendor row has its NOT NULL name and email set |
| Records.NewProposal | backend/routers/proposals.py:32 | a new proposal row keeps the RFP and vendor it was created for |
| Records.RfpPatchedExactly | backend/routers/rfps.py:83-85 | after the `setattr` loop every named column holds its new value; every other column, the id and `created_at` are unchanged |
| Records.RfpPatchedIdempotent | backend/routers/rfps.py:83-85 | applying the same partial update twice gives the same row as applying it once |
| Records.VendorPatchedExactly | backend/routers/vendors.py:60-62 | the same for vendors: named columns set, all others and the id kept |
| Records.ProposalPatchedExactly | backend/routers/proposals.py:75-77 | the same for proposals |
| Store.Database.constructor | backend/database.py:35-125 | an empty database satisfies the table invariant |
| Store.Database.RfpAt | backend/routers/rfps.py:66 | `filter(id == k).first()` finds a row exactly when key `k` is in the table, and it is that row |
| Store.Database.VendorAt | backend/routers/vendors.py:43 | the same for vendors |
| Store.Database.ProposalAt | backend/routers/proposals.py:58 | the same for proposals |
| Store.Database.AddRfp | backend/routers/rfps.py:46-48 | inserts exactly one row under a fresh key; the other tables are unchanged |
| Store.Database.AddVendor | backend/routers/vendors.py:22-24 | the same for vendors |
| Store.Database.AddProposal | backend/routers/proposals.py:32-34 | the same for proposals |
| Tables.Scan | backend/routers/email.py:28 | `filter(p).all()` lists, in ascending key order, exactly the keys whose rows satisfy `p` |
| Tables.First | backend/routers/email.py:95 | `.first()` gives a matching row with the least key, or nothing exactly when no row matches |
| Tables.SortNewestFirst | backend/routers/rfps.py:58 | `order_by(created_at.desc())` gives a permutation of the rows, newest first |
| Tables.ScanCoversTable | backend/routers/rfps.py:58 | an unfiltered query returns each row exactly once |
| AiService.Unfence | backend/ai_service.py:56-61 | fence removal keeps a contiguous slice: the leading "```json" and "```" steps remove at most 10 characters, and exactly 3 more go when what is left ends in "```", otherwise none; a reply without a fence is untouched |
| AiService.StripFence | backend/ai_service.py:53-61 | the cleaned reply is a slice of the stripped reply, at most 13 characters shorter, and equal to it when there is no fence |
| AiService.StripFenceOfFencedReply | backend/ai_service.py:53-61 | a reply "```json<json>```" is cleaned to exactly `<json>` |
| AiService.AiCall | backend/ai_service.py:52-68 | every failure, of the call or of the parser, becomes the helper's prefix followed by the original message; success is the parser's value |
| AiService.ParseNaturalLanguageToRfp | backend/ai_service.py:18-68 | succeeds exactly when the call and the parser succeed; every error starts "Failed to parse RFP: " |
| AiService.ExtractProposalDetails | backend/ai_service.py:71-130 | the same, with "Failed to extract proposal details: " |
| AiService.SummarizeDefaults | backend/ai_service.py:143-153 | only a missing key takes the summary's default ("Unknown", 0, []); other keys pass through |
| AiService.SummarizeComplete | backend/ai_service.py:143-153 | a dictionary that has every key is summarized to exactly its values |
| AiService.SummarizeProposals | backend/ai_service.py:143-153 | one summary per proposal, in order |
| AiService.CompareProposalsAndRecommend | backend/ai_service.py:133-197 | the summaries and the parsed comparison; every error starts "Failed to compare proposals: " |
| EmailService.SlotText | backend/email_service.py:47-48 | a missing key renders the default; a key holding `None` renders "None" |
| EmailService.Subject | backend/email_service.py:34 | "Request for Proposal: " followed by the title, or by "RFP" when the key is missing |
| EmailService.ItemLine | backend/email_service.py:68-75 | every item line starts "- " and ends with a newline |
| EmailService.SectionsPresent | backend/email_service.py:65-81 | the items and requirements sections appear exactly when their lists are non-empty |
| EmailService.TextBodyShape | backend/email_service.py:42-91 | the body opens with the greeting to the vendor and ends with the signature |
| EmailService.BuildTextBody | backend/email_service.py:42-91 | the `+=` sequence builds exactly `TextBody` |
| EmailService.AppendDetailLines | backend/email_service.py:52-62 | the budget, delivery, payment and warranty lines are appended in that order, each only when its value is truthy |
| EmailService.AppendItemsSection | backend/email_service.py:65-75 | appends the items heading and one line per item, only for a non-empty list |
| EmailService.AppendItemLines | backend/email_service.py:67-75 | the item loop appends the lines of all items, in order |
| EmailService.AppendRequirementsSection | backend/email_service.py:78-81 | appends the requirements heading and one line per requirement, only for a non-empty list |
| EmailService.AppendRequirementLines | backend/email_service.py:80-81 | the requirement loop appends "- <req>\n" for each requirement, in order |
| EmailService.BuildMessage | backend/email_service.py:33-36 | the message has the subject, the configured user as sender, the vendor as recipient, and the text body |
| EmailService.EmailOutcomeCases | backend/email_service.py:29-30 | without credentials the outcome is "SMTP credentials not configured"; with them it is `Ok` exactly when the transport accepts the message; otherwise it is the transport's error after "Failed to send email: " |
| EmailService.SendRfpEmail | backend/email_service.py:22-186 | the coroutine's outcome is `EmailOutcome`, whose cases are stated by `EmailOutcomeCases` |
| EmailRouter.RfpDataOf | backend/routers/email.py:33-42 | the dictionary has every key; NULL items and requirements become `[]` |
| EmailRouter.SentSubject | backend/routers/email.py:48 | a stored RFP is mailed under its own title |
| EmailRouter.Entry | backend/routers/email.py:49-61 | status is "sent" exactly when delivery succeeded; otherwise it is "failed" with the error message |
| EmailRouter.UnconfiguredFailsAll | backend/routers/email.py:54-61 | without credentials every vendor's entry fails with the credential message |
| EmailRouter.SendAll | backend/routers/email.py:45-61 | one entry per vendor, in order; a failure does not stop the loop |
| EmailRouter.SelectionComplete | backend/routers/email.py:28-30 | the count check rejects exactly when an id is unknown or listed twice |
| EmailRouter.SendToSelected | backend/routers/email.py:28-61 | one entry per selected id, in key order, each the outcome for that vendor |
| EmailRouter.SendRfp | backend/routers/email.py:18-67 | a missing RFP or vendor is a 404 and nothing changes; otherwise every selected vendor has an entry, and status becomes "sent" even when every delivery failed |
| EmailRouter.SearchFrom | backend/routers/email.py:79 | `re.search` finds the leftmost match, or nothing exactly when no position matches |
| EmailRouter.ExtractRfpId | backend/routers/email.py:79-81 | there is no id exactly when the pattern matches nowhere |
| EmailRouter.ExtractFromTaggedSubject | backend/routers/email.py:78-81 | "RFP #n" followed by a non-digit yields `n` |
| EmailRouter.ExtractFromReplySubject | backend/routers/email.py:79 | a reply to the mailed subject yields exactly what its title yields |
| EmailRouter.TargetRfp | backend/routers/email.py:75-87 | a truthy `rfp_id` wins; otherwise the subject's number; otherwise a 400 |
| EmailRouter.ReplyRow | backend/routers/email.py:123-135 | the stored row keeps the raw body and the extraction; a missing score becomes 0 |
| EmailRouter.WithoutKeys | backend/routers/email.py:139-141 | the update loop keeps exactly the assignments that are not keys |
| EmailRouter.ReplyUpdate | backend/routers/email.py:137-142 | the update path leaves the same row as the insert path would build |
| EmailRouter.ProposalDataWrites | backend/routers/email.py:149 | `ProposalModel(**proposal_data)` writes every named column |
| EmailRouter.ApplyReply | backend/routers/email.py:139-142 | the loop applies exactly the non-key assignments, in order |
| EmailRouter.OnePerPairReplace | backend/routers/email.py:137-145 | overwriting a reply keeps at most one proposal per (RFP, vendor) pair |
| EmailRouter.OnePerPairInsert | backend/routers/email.py:147-153 | inserting a first reply keeps at most one proposal per pair |
| EmailRouter.StoreReply | backend/routers/email.py:137-153 | overwrites the vendor's earlier proposal for this RFP, or inserts a new row; one proposal per pair is preserved |
| EmailRouter.ReceiveVendorEmail | backend/routers/email.py:70-160 | every error case (400, 404 RFP, 404 vendor, 500 with "Failed to parse email: ") leaves the database unchanged; the route succeeds exactly when the RFP exists, the sender is a known vendor and the extraction succeeds, and then it stores the reply's row |
| ProposalsRouter.CreateProposal | backend/routers/proposals.py:17-36 | the RFP is checked, then the vendor; a row is added only when both exist |
| ProposalsRouter.ProposalRows | backend/routers/proposals.py:44-50 | the rows a filtered query reads back are exactly the matching rows, in key order |
| ProposalsRouter.ListProposals | backend/routers/proposals.py:39-50 | every proposal is listed exactly when it passes the filter, which applies only for a truthy `rfp_id`; rows in key order |
| ProposalsRouter.GetProposal | backend/routers/proposals.py:53-62 | the row, or 404 "Proposal not found" |
| ProposalsRouter.ApplyProposalUpdate | backend/routers/proposals.py:75-77 | the loop leaves the patched row; id and arrival time are kept |
| ProposalsRouter.UpdateProposal | backend/routers/proposals.py:65-81 | 404 when missing; otherwise only that row changes, to the patched row |
| ProposalsRouter.ClientUpdateKeepsKeys | backend/routers/proposals.py:75-77 | a client update never moves a proposal to another RFP or vendor |
| ProposalsRouter.BuildComparisonInput | backend/routers/proposals.py:99-110 | one entry per proposal, in order, with the vendor looked up by key |
| ProposalsRouter.ComparisonEntrySummary | backend/routers/proposals.py:102-110 | the router's entries carry every key, so the helper's defaults never apply |
| ProposalsRouter.CompareOutcome | backend/routers/proposals.py:123-130 | a failure is a 500 whose detail repeats the "Failed to compare proposals: " prefix |
| ProposalsRouter.CompareProposals | backend/routers/proposals.py:84-130 | a missing RFP is a 404; the proposals read are exactly the RFP's rows in ascending key order; none is a 404; otherwise `proposals_data` has one entry per proposal, in the same order, built from that proposal and its vendor |
| RfpsRouter.FromTextOutcome | backend/routers/rfps.py:22-38 | every error starts "Failed to create RFP: "; success means parse and validation succeeded |
| RfpsRouter.CreateRfpFromText | backend/routers/rfps.py:18-38 | a 400 leaves the database unchanged; otherwise exactly one new row is added |
| RfpsRouter.CreateRfp | backend/routers/rfps.py:41-50 | exactly one new row, status "draft" |
| RfpsRouter.TableRows | backend/routers/rfps.py:58 | the rows read back are exactly the table's rows |
| RfpsRouter.ListRfps | backend/routers/rfps.py:53-58 | every RFP once, newest first |
| RfpsRouter.GetRfp | backend/routers/rfps.py:61-70 | the row, or 404 "RFP not found" |
| RfpsRouter.ApplyRfpUpdate | backend/routers/rfps.py:83-85 | the loop leaves the patched row; id and `created_at` are kept |
| RfpsRouter.UpdateRfp | backend/routers/rfps.py:73-89 | 404 when missing; a NULL title is rejected by the commit; otherwise only that row changes |
| RfpsRouter.DeleteRfp | backend/routers/rfps.py:92-105 | 404 when missing; a referenced RFP cannot be deleted; otherwise exactly that row goes |
| VendorsRouter.CreateVendor | backend/routers/vendors.py:17-27 | exactly one new row |
| VendorsRouter.VendorRows | backend/routers/vendors.py:35 | the rows read back are the table's rows, in key order |
| VendorsRouter.ListVendors | backend/routers/vendors.py:30-35 | every vendor once, in key order |
| VendorsRouter.GetVendor | backend/routers/vendors.py:38-47 | the row, or 404 "Vendor not found" |
| VendorsRouter.ApplyVendorUpdate | backend/routers/vendors.py:60-62 | the loop leaves the patched row; the id is kept |
| VendorsRouter.UpdateVendor | backend/routers/vendors.py:50-66 | 404 when missing; a NULL name or email is rejected; otherwise only that row changes |
| VendorsRouter.DeleteVendor | backend/routers/vendors.py:69-81 | 404 when missing; a referenced vendor cannot be deleted; otherwise exactly that row goes |
| RfpDetail.Initial | frontend/src/components/RFPDetail.jsx:20-38 | the `useState` initial values: only `loading` is set |
| RfpDetail.Without | frontend/src/components/RFPDetail.jsx:125 | the filter removes exactly `v`; a duplicate-free list stays duplicate-free |
| RfpDetail.Toggled | frontend/src/components/RFPDetail.jsx:122-128 | flips the membership of `v` and only of `v`; keeps the list duplicate-free |
| RfpDetail.ToggleTwice | frontend/src/components/RFPDetail.jsx:122-128 | toggling twice restores the selection |
| RfpDetail.ProposalFilter | frontend/src/components/RFPDetail.jsx:52 | the RFP id is sent as a filter only when it is non-zero |
| RfpDetail.LoadStep | frontend/src/components/RFPDetail.jsx:46-65 | three requests; all three replies replace the snapshot, or none does and the error is set; `loading` ends false |
| RfpDetail.SendStep | frontend/src/components/RFPDetail.jsx:70-95 | an empty selection only sets the error; otherwise flags are set before the request; a success empties the selection and reloads once, after which `loading` is false and either the error is cleared and the snapshot is the reload's replies, or the error is the load failure and the old snapshot stays; a failure keeps the selection |
| RfpDetail.CompareStep | frontend/src/components/RFPDetail.jsx:100-119 | fewer than two proposals only sets the error; otherwise one request; a success caches and shows the result; a failure keeps the cache |
| RfpDetail.ScreenOf | frontend/src/components/RFPDetail.jsx:131-132 | loading screen, not-found screen, or the detail |
| RfpDetail.EnabledSendIssuesRequest | frontend/src/components/RFPDetail.jsx:283 | an enabled send button issues the send request, and is disabled while that request is outstanding |
| RfpDetail.EnabledCompareIssuesRequest | frontend/src/components/RFPDetail.jsx:311-315 | the same for the compare button |
| RfpDetail.SendThenReloadFails | frontend/src/components/RFPDetail.jsx:87-91 | a send that succeeds but whose reload fails shows both the success and the load error |
| RfpDetail.ComparedIsShown | frontend/src/components/RFPDetail.jsx:323 | after a successful comparison the result is on screen |
| RfpDetail.Render | frontend/src/components/RFPDetail.jsx:41-46 | a render succeeds exactly when every read of `loadData` comes after its binding |
| RfpDetail.MountStep | frontend/src/components/RFPDetail.jsx:41-65 | the first load shows the RFP exactly when all three replies arrived |
| RfpDetail.Mount | frontend/src/components/RFPDetail.jsx:41-46 | a mount either throws during the first render, making no request, or runs the effect's load |
| RfpDetail.MountAsWrittenThrows | frontend/src/components/RFPDetail.jsx:41-46 | as written, every mount throws before any request |
| RfpDetail.ReorderedMountLoads | frontend/src/components/RFPDetail.jsx:41-46 | with the declaration first, the render succeeds and the mount loads as `MountStep` says |
| RfpDetail.RfpDetailView.constructor | frontend/src/components/RFPDetail.jsx:20-38 | the component starts in the initial state |
| RfpDetail.RfpDetailView.Toggle | frontend/src/components/RFPDetail.jsx:122-128 | only the selection changes, as `Toggled` says |
| RfpDetail.RfpDetailView.Load | frontend/src/components/RFPDetail.jsx:46-65 | new state and requests as `LoadStep` says |
| RfpDetail.RfpDetailView.SendRfp | frontend/src/components/RFPDetail.jsx:70-95 | new state and requests as `SendStep` says |
| RfpDetail.RfpDetailView.Compare | frontend/src/components/RFPDetail.jsx:100-119 | new state and requests as `CompareStep` says |
| CreateRfp.Initial | frontend/src/components/CreateRFP.jsx:14-23 | empty text, no error, no messages, not loading |
| CreateRfp.DescriptionLine | frontend/src/components/CreateRFP.jsx:50 | present exactly for a non-empty description |
| CreateRfp.BudgetLine | frontend/src/components/CreateRFP.jsx:51 | present exactly for a non-zero budget |
| CreateRfp.DeliveryLine | frontend/src/components/CreateRFP.jsx:52 | present exactly for a non-zero number of days |
| CreateRfp.ItemsLine | frontend/src/components/CreateRFP.jsx:54-56 | present exactly for a non-empty item list |
| CreateRfp.Summary | frontend/src/components/CreateRFP.jsx:49-57 | starts with the greeting and the title line; ends with the review question |
| CreateRfp.Answer | frontend/src/components/CreateRFP.jsx:45-80 | an assistant message: the summary on success, the fixed apology on failure |
| CreateRfp.SubmitStep | frontend/src/components/CreateRFP.jsx:28-84 | blank text changes nothing; otherwise one request with the trimmed text; two messages appended; `loading` ends false; a failure sets the error |
| CreateRfp.SubmitEnabledIssues | frontend/src/components/CreateRFP.jsx:155 | an enabled button issues one request and is disabled while it is outstanding |
| CreateRfp.PairedAppend | frontend/src/components/CreateRFP.jsx:35-80 | a user message followed by an answer keeps the history paired |
| CreateRfp.ApplyExtends | frontend/src/components/CreateRFP.jsx:35-80 | one event keeps the history as a prefix and keeps it paired |
| CreateRfp.RunAppendOnly | frontend/src/components/CreateRFP.jsx:35-80 | over any session the history only grows at its end and stays paired |
| CreateRfp.ChatView.constructor | frontend/src/components/CreateRFP.jsx:14-23 | the component starts in the initial state |
| CreateRfp.ChatView.Type | frontend/src/components/CreateRFP.jsx:147 | only the text changes |
| CreateRfp.ChatView.Submit | frontend/src/components/CreateRFP.jsx:28-84 | new state and requests as `SubmitStep` says |
| CreateRfp.ChatView.Respond | frontend/src/components/CreateRFP.jsx:40-83 | one assistant message; the error on failure; `loading` back to false |

## Left out

- Floating point: budgets and prices are whole cents (`Money`), and completeness scores are `real`. Rounding in `{:,.2f}` and in `toLocaleString` is not modelled. Negative amounts are outside `Money`.
- Regular expressions: `\d` is ASCII digits only. Python's `\s` and `str.strip` are the characters `str.isspace` accepts, listed explicitly. Case folding covers ASCII, which is all "RFP" needs.
- The AI model: the prompts are left out. The chat completion is a parameter (its text or the message of the exception it raised), and so is `json.loads`. Replies that parse to something other than the expected object are outside the model.
- Request and response validation by Pydantic: `EmailStr`, `response_model` conversion, and the `RFPCreate(**parsed)` step, which is a parameter `validate`.
- The HTML part of the mail, and `aiosmtplib.send`, which is a parameter returning `None` or the exception's message.
- Time: `created_at`, `received_at` and `now` are parameters; `updated_at` is not modelled. `db.refresh` is the identity.
- Database errors other than the NOT NULL violations named in the routes: locking, I/O, and `ForeignKey` checks (SQLite does not enforce them by default).
- Store.Database: keys are never reused. SQLite gives an `INTEGER PRIMARY KEY` without `AUTOINCREMENT` the largest key in the table plus one, so it reuses the key of a deleted last row; the model hands out a fresh key instead. Keys are also unbounded, whereas SQLite's are 64-bit: an id of 2^63 or more in a path or a subject makes the driver raise at the query, a 500, where the model answers 404.
- Queries without `ORDER BY` are modelled in ascending key order (SQLite's rowid order for a plain table scan); SQL itself leaves that order unspecified. `.first()` is the row with the least key (`Tables.First`: `SenderOf`, `PriorReply`). `.all()` lists rows in ascending key order (`Tables.Scan`). This fixes the order of `EmailRouter.SendToSelected`'s and `EmailRouter.SendAll`'s per-vendor results (backend/routers/email.py:28), of `VendorsRouter.ListVendors`/`VendorsRouter.VendorRows` (backend/routers/vendors.py:35), of `ProposalsRouter.ListProposals`/`ProposalsRouter.ProposalRows` (backend/routers/proposals.py:50), and of `ProposalsRouter.CompareProposals`'s `proposals_data` (backend/routers/proposals.py:94).
- Concurrency in the pages: each handler is one atomic step. Interleaved handlers and replies arriving out of order are not modelled. The `setTimeout` redirect after a created RFP (frontend/src/components/CreateRFP.jsx:62-64) and `console.error` are left out.
- `Number(id)` of a route parameter that is not a number (NaN) is not modelled; `id` is an integer.
- Dashboard, vendor form and list pages, `main.py` and the API wrappers in `frontend/src/api/` are not part of this model.
- EmailService.EmailOutcome: carries no `ensures` of its own. Its cases are stated by `EmailService.EmailOutcomeCases`, to keep callers' proofs small.
- AiService.SummarizeProposals: the prompt built from the summaries is not modelled, only the summaries themselves.

## Findings

| source | as written | input that shows it | evidently intended | confidence | as-written member | corrected member |
|---|---|---|---|---|---|---|
| frontend/src/components/RFPDetail.jsx:41-46 | the effect's dependency list `[id, loadData]` is evaluated during render, before `const loadData = useCallback(...)` on line 46 has run; reading a `const` in its temporal dead zone throws a ReferenceError | any mount of the page | declare `loadData` above the effect, so the first render registers the effect and loads the RFP | medium, not executed; holds as long as the bundler keeps `const` semantics | RfpDetail.MountAsWrittenThrows | RfpDetail.ReorderedMountLoads |
