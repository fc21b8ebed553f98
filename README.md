# Portfolio site core, modelled in Dafny

This project models the logic of a Next.js portfolio site. It covers these parts:

- the browser speech adapter (`useSpeech`): recogniser and synthesiser events, listening and speaking flags, voice choice;
- the two voice/chat assistants built on it: a turn controller that talks to `/api/assistant`, and an older variant with a local keyword responder;
- the assistant API route: provider selection, message assembly, rule-based fallback;
- the contact relay and the contact form that posts to it;
- the hero typewriter, the header's active-link test and mobile menu, and the project queries;
- the n8n workflow canvas, node cards and viewer;
- the demos page's keyword extraction and demo picker;
- the sitemap and the RSS feed.

Code that changes state step by step (the speech adapter, both assistants, the contact form, the typewriter's timer, the header menu, the workflow viewer's tabs and the demos) is modelled as classes. Each class has one method per handler or platform event. Network replies, thrown failures, timers, random draws and the clock are inputs to these methods. The rest is modelled as functions over datatypes, with lemmas.

Modules, one per source file, plus shared helpers:

- `Common`, `Strings`, `Chat`: Option, JavaScript string helpers (trim with `\s`, ASCII case mapping, `includes`, `split(/\s+/)`, `split('.').pop()`, `join`, `slice`), chat messages.
- `Ordering`: the stable descending sort that `Array.prototype.sort` performs with a `b - a` comparator.
- `KeywordRules`: an ordered first-match keyword responder. It is the reference definition for both keyword if-chains.
- `Speech` (hooks/useSpeech.ts), `VoiceAgentV2`, `VoiceAgent`, `AssistantRoute`, `ContactRoute`, `ContactForm`, `Hero`, `Header`, `ProjectsData`, `WorkflowCanvas`, `WorkflowNode`, `WorkflowViewer`, `Demos`, `Sitemap`, `Rss`.

## Model

| member | source | states |
|---|---|---|
| Speech.DefaultVoice | hooks/useSpeech.ts:41-50 | no voice is chosen exactly when the list is empty; a chosen voice is one of the list |
| Speech.FirstEnglish | hooks/useSpeech.ts:46 | a voice found is one of the list, and its language starts with "en-" |
| Speech.FirstEnglishIsFirst | hooks/useSpeech.ts:46 | `find` returns the first voice whose lang starts with "en-" |
| Speech.FirstEnglishNone | hooks/useSpeech.ts:46 | with no English voice, `find` returns nothing |
| Speech.DefaultVoicePrefersEnglish | hooks/useSpeech.ts:46 | the default is the first English voice when there is one |
| Speech.DefaultVoiceWithoutEnglish | hooks/useSpeech.ts:46 | with no English voice, the default is the first voice |
| Speech.FinalTranscript | hooks/useSpeech.ts:81-86 | the loop concatenates the final transcripts from `resultIndex` to the end, in order |
| Speech.FinalsBetween | hooks/useSpeech.ts:81-86 | the final transcripts of a range of results, in order; an empty range gives "" |
| Speech.InterimOnlyGivesNothing | hooks/useSpeech.ts:81-86 | interim-only results give the empty text |
| Speech.SingleFinalGivesItsTranscript | hooks/useSpeech.ts:81-86 | one final result among interim ones gives exactly its transcript |
| Speech.StartListeningStep | hooks/useSpeech.ts:125-135 | `startListening` never sets `isListening` or `isSpeaking` itself |
| Speech.SpeakStep | hooks/useSpeech.ts:149-190 | `speak` queues exactly one utterance of the text, with the voice of the render that created it, and leaves the selection alone; without a synthesiser nothing changes |
| Speech.SpeechAdapter.constructor | hooks/useSpeech.ts:61-66 | starts idle with no calls made; without a recogniser the error is "Speech recognition not supported in this browser" |
| Speech.SpeechAdapter.LoadVoices | hooks/useSpeech.ts:41-50 | stores the voices; the selection becomes the default voice only when there is one |
| Speech.SpeechAdapter.StartListening | hooks/useSpeech.ts:125-135 | without a recogniser or while listening, nothing happens; otherwise the transcript is cleared and one `start()` is made; a throwing start records "Failed to start listening" |
| Speech.SpeechAdapter.StopListening | hooks/useSpeech.ts:137-147 | `isListening` is false afterwards, even when `stop()` throws; one `stop()` is made when a recogniser exists |
| Speech.SpeechAdapter.Speak | hooks/useSpeech.ts:149-190 | cancels playback first, then queues one utterance with the voice its render saw (the `SpeakStep` state) |
| Speech.SpeechAdapter.SpeakTimerFires | hooks/useSpeech.ts:187-189 | the oldest queued utterance is handed to the synthesiser; nothing else changes |
| Speech.SpeechAdapter.StopSpeaking | hooks/useSpeech.ts:192-197 | cancels playback and clears `isSpeaking` |
| Speech.SpeechAdapter.StopListeningTwice | hooks/useSpeech.ts:137-147 | two `stopListening` calls leave the state one call leaves and make one `stop()` each |
| Speech.SpeechAdapter.SpeakThenSetVoice | hooks/useSpeech.ts:149-201 | a voice chosen after `speak` leaves the built and queued utterance with the voice selected when it was built |
| Speech.SpeechAdapter.SetVoice | hooks/useSpeech.ts:199-201 | only `selectedVoice` changes |
| Speech.SpeechAdapter.OnStart | hooks/useSpeech.ts:73-76 | listening becomes true and the error is cleared |
| Speech.SpeechAdapter.OnResult | hooks/useSpeech.ts:78-94 | a non-empty final text becomes the transcript and is delivered once to `onTranscript`; interim-only events change nothing |
| Speech.SpeechAdapter.OnError | hooks/useSpeech.ts:96-107 | "aborted" and "no-speech" only clear listening; any other code also records "Speech recognition error: " + code |
| Speech.SpeechAdapter.OnEnd | hooks/useSpeech.ts:109-114 | clears listening and fires `onSpeechEnd` exactly when it was given |
| Speech.SpeechAdapter.OnUtteranceStart | hooks/useSpeech.ts:168-170 | `isSpeaking` turns true |
| Speech.SpeechAdapter.OnUtteranceEnd | hooks/useSpeech.ts:172-174 | `isSpeaking` turns false |
| Speech.SpeechAdapter.OnUtteranceError | hooks/useSpeech.ts:176-182 | `isSpeaking` turns false; only errors other than "canceled" and "interrupted" are logged |
| VoiceAgentV2.AssistantContent | components/VoiceAgentV2.tsx:99 | the reply is `response` when truthy, else `text` when truthy, else "Sorry, I could not process that."; never empty |
| VoiceAgentV2.TextIsTheFallback | components/VoiceAgentV2.tsx:99 | with a falsy `response`, a truthy `text` is used |
| VoiceAgentV2.ReplyContent | components/VoiceAgentV2.tsx:96-116 | a thrown request gives "Sorry, I encountered an error. Please try again."; an answer gives `AssistantContent` |
| VoiceAgentV2.TrimmedIsNotBlank | components/VoiceAgentV2.tsx:133-135 | text that passes the blank guard stays non-blank after trimming |
| VoiceAgentV2.VoiceChat.constructor | components/VoiceAgentV2.tsx:17-22 | empty log and input, chat and audio shown, nothing in flight |
| VoiceAgentV2.VoiceChat.SetInputValue | components/VoiceAgentV2.tsx:242 | the input box takes the typed value |
| VoiceAgentV2.VoiceChat.ToggleChat | components/VoiceAgentV2.tsx:192 | flips `showChat` |
| VoiceAgentV2.VoiceChat.Begin | components/VoiceAgentV2.tsx:67-88 | appends the user message, sends it with the earlier log as history, and sets `isProcessing` |
| VoiceAgentV2.VoiceChat.HandleSpeechInput | components/VoiceAgentV2.tsx:58-90 | refused with no change when the text is blank or a turn is running; otherwise stops listening and sends the untrimmed text with the earlier log as history |
| VoiceAgentV2.VoiceChat.HandleTextInput | components/VoiceAgentV2.tsx:132-160 | refused with no change on blank input or a running turn; otherwise sends the trimmed text and clears the box |
| VoiceAgentV2.VoiceChat.ReceiveReply | components/VoiceAgentV2.tsx:96-129 | appends exactly one assistant message; speaks it only on the answered path with audio on, with the voice selected when the turn began; schedules a restart only for spoken turns that began with audio on and neither speaking nor listening; `isProcessing` ends false |
| VoiceAgentV2.VoiceChat.VoiceChangedMidTurn | components/VoiceAgentV2.tsx:132-190 | a voice chosen while a typed turn is in flight stays selected, but the reply is still queued with the voice selected when the turn began |
| VoiceAgentV2.VoiceChat.TypedTurn | components/VoiceAgentV2.tsx:132-190 | an accepted typed turn appends exactly two messages, user then assistant, and never restarts listening |
| VoiceAgentV2.VoiceChat.SpokenTurn | components/VoiceAgentV2.tsx:58-130 | an accepted spoken turn appends exactly two messages, user then assistant, with listening stopped |
| VoiceAgentV2.VoiceChat.RestartTimerFires | components/VoiceAgentV2.tsx:120-128 | the oldest restart timer calls `startListening` when it was scheduled to, and changes nothing else |
| VoiceAgentV2.VoiceChat.ToggleAudio | components/VoiceAgentV2.tsx:193-203 | turning audio on starts listening; turning it off stops listening and speaking |
| VoiceAgentV2.VoiceChat.AudioOffEffect | components/VoiceAgentV2.tsx:45-51 | with audio off, listening is stopped |
| VoiceAgentV2.VoiceChat.OnRecognitionResult | components/VoiceAgentV2.tsx:36-41 | a recognised final text is handed to `handleSpeechInput` |
| VoiceAgent.GenerateResponseIsFirstMatch | components/VoiceAgent.tsx:144-161 | the if-chain equals the ordered rule table on the lower-cased question: experience/work, skills, project, contact/hire, education, else the default |
| VoiceAgent.GenerateResponse | components/VoiceAgent.tsx:144-161 | "experience" or "work" in the lower-cased question always gets the experience reply; a question with none of the keywords gets the default reply |
| VoiceAgent.JoinedTranscript | components/VoiceAgent.tsx:57-60 | no results give ""; a single result gives its transcript unchanged |
| VoiceAgent.GenerateResponseIgnoresCase | components/VoiceAgent.tsx:145 | the reply does not depend on letter case |
| VoiceAgent.VoiceAgent.constructor | components/VoiceAgent.tsx:20-32 | the log holds exactly the greeting; the voice is "jenny" |
| VoiceAgent.VoiceAgent.SetInput | components/VoiceAgent.tsx:274 | the input takes the typed value |
| VoiceAgent.VoiceAgent.SelectVoice | components/VoiceAgent.tsx:189 | the voice selection takes the chosen value |
| VoiceAgent.VoiceAgent.HandleSendMessage | components/VoiceAgent.tsx:93-106 | refuses only blank input; otherwise appends the untrimmed input, clears it and sets `isProcessing`, with no guard against a running turn |
| VoiceAgent.VoiceAgent.ReplyTimerFires | components/VoiceAgent.tsx:108-129 | appends exactly one `generateResponse` reply for the oldest pending message and clears `isProcessing` |
| VoiceAgent.VoiceAgent.UtteranceStarted | components/VoiceAgent.tsx:125 | `isSpeaking` turns true |
| VoiceAgent.VoiceAgent.UtteranceEnded | components/VoiceAgent.tsx:126 | `isSpeaking` turns false |
| VoiceAgent.VoiceAgent.ToggleListening | components/VoiceAgent.tsx:132-142 | flips `isListening` and `isRecording` together; a throwing start leaves both as they were |
| VoiceAgent.VoiceAgent.OnResult | components/VoiceAgent.tsx:56-66 | only when the first result is final: the input takes the joined transcripts and listening stops |
| VoiceAgent.VoiceAgent.OnError | components/VoiceAgent.tsx:68-72 | clears both flags |
| VoiceAgent.VoiceAgent.OnEnd | components/VoiceAgent.tsx:74-77 | clears both flags |
| KeywordRules.FirstMatchWins | components/VoiceAgent.tsx:144-161 | the first rule whose keyword occurs decides the reply |
| KeywordRules.NoMatchGivesDefault | components/VoiceAgent.tsx:160 | with no matching rule the default reply is given |
| AssistantRoute.SelectProvider | app/api/assistant/route.ts:44-122 | Groq when its key is set; else Together when its key is set; else Ollama when `USE_OLLAMA` is "true"; else rule-based (each an if-and-only-if) |
| AssistantRoute.ModelId | app/api/assistant/route.ts:44-126 | a model identifier is sent for every provider, and none (the empty text) only on the rule-based path |
| AssistantRoute.ModelLabel | app/api/assistant/route.ts:44-126 | the three hosted providers are labelled "Llama 3 (…)"; the rule-based path is labelled "Rule-based …" |
| AssistantRoute.SystemContext | app/api/assistant/route.ts:15-41 | no contract of its own: the system prompt template filled from the knowledge base |
| AssistantRoute.SystemContextOpensWithName | app/api/assistant/route.ts:15 | the system prompt opens with "You are an AI assistant representing " and the person's name |
| AssistantRoute.ChatMessages | app/api/assistant/route.ts:53-57 | the system context, then the history in order, then the user message |
| AssistantRoute.TopicIsFirstMatch | app/api/assistant/route.ts:138-168 | the reply topic is the first match, on the lower-cased message: experience/background, skill/tech, project, contact/hire/available, ai/ml/machine learning, else general |
| AssistantRoute.TopicOf | app/api/assistant/route.ts:139-168 | "experience" or "background" in the lower-cased message always gives the experience topic; a message with none of the keywords gives the general topic |
| AssistantRoute.TopicIgnoresCase | app/api/assistant/route.ts:139 | the topic does not depend on letter case |
| AssistantRoute.SkillList | app/api/assistant/route.ts:147-150 | the first three AI/ML frameworks, then the first two backend frameworks |
| AssistantRoute.ExperienceReply | app/api/assistant/route.ts:143 | no contract of its own: the experience template (summary, years, first three specializations); `TopicReply` picks it |
| AssistantRoute.SkillsReply | app/api/assistant/route.ts:146-151 | no contract of its own: the skills template over `SkillList` and the first two specializations; `TopicReply` picks it |
| AssistantRoute.ProjectReply | app/api/assistant/route.ts:155-156 | no contract of its own: the template for the first project; `TopicReply` fails instead when there is none |
| AssistantRoute.ContactReply | app/api/assistant/route.ts:160 | no contract of its own: the contact template with the lower-cased status; `TopicReply` picks it |
| AssistantRoute.AiMlReply | app/api/assistant/route.ts:164 | no contract of its own: the AI/ML template over the first three frameworks and expertise areas; `TopicReply` picks it |
| AssistantRoute.GeneralReply | app/api/assistant/route.ts:168 | no contract of its own: the default template with role and first specialization; `TopicReply` picks it |
| AssistantRoute.TopicReply | app/api/assistant/route.ts:154-157 | the project reply fails exactly when the knowledge base has no project |
| AssistantRoute.RuleBasedResponse | app/api/assistant/route.ts:138-168 | fails only on a project question with no project in the knowledge base |
| AssistantRoute.Post | app/api/assistant/route.ts:10-136 | the provider call carries the selected provider, its model and `ChatMessages`, and a reply is the provider's content; on the rule-based path no call is made and the reply is `RuleBasedResponse` of the message; a reply carries the provider's model label; every failure is 500 "Failed to generate response" |
| AssistantRoute.MissingHistoryIsEmpty | app/api/assistant/route.ts:12 | a missing `conversationHistory` is sent as an empty history |
| ContactRoute.ParseContact | app/api/contact/route.ts:7-13 | accepted exactly when name is 1..100 characters, the email is valid, message is 1..5000 characters and the optional fields are absent or well-typed |
| ContactRoute.ExpiryBoundary | app/api/contact/route.ts:35-44 | a non-zero timestamp passes exactly when it is within one hour of now, both ends included |
| ContactRoute.Expired | app/api/contact/route.ts:35-44 | a missing or zero timestamp never expires; an expired one is more than an hour from now, in either direction |
| ContactRoute.BlankHoneypotPasses | app/api/contact/route.ts:30-33 | a whitespace-only honeypot does not trip |
| ContactRoute.HoneypotTripped | app/api/contact/route.ts:30-33 | tripped exactly when the honeypot is present and not all white space |
| ContactRoute.ComposeEmail | app/api/contact/route.ts:47-59 | sender fixed; subject "Portfolio Contact: " + name; recipient `CONTACT_TO` when set, else the default address; the html body is the template filled with name, email and the message with newlines turned into `<br>` |
| Strings.NewlinesToBreaksAppend | app/api/contact/route.ts:56 | the replacement works piece by piece over a concatenation |
| Strings.NewlinesToBreaksOneChar | app/api/contact/route.ts:56 | a newline becomes `<br>`, any other character is kept |
| ContactRoute.Post | app/api/contact/route.ts:15-77 | checks in order schema, honeypot, timestamp, each failing with its 400 message and no email; then a send error gives 500 "Failed to send email", a throw 500 "Internal server error", a success the id |
| ContactRoute.SentIffAllChecksPass | app/api/contact/route.ts:20-46 | an email is sent exactly when every check passes |
| ContactForm.WithField | components/ContactForm.tsx:30-33 | the named field takes the value and the others are kept |
| ContactForm.WithFieldSameValue | components/ContactForm.tsx:30-33 | writing a field's own value back changes nothing |
| ContactForm.RequestBody | components/ContactForm.tsx:46-49 | the four fields plus `ts`, which is `null` before the mount effect ran |
| ContactForm.SubmitBeforeMountIsRefused | components/ContactForm.tsx:24-28 | a submission with `ts: null` is refused by the relay with 400 "Invalid form data" |
| ContactForm.EmptyHoneypotPasses | components/ContactForm.tsx:17 | an untouched honeypot never trips the relay's check |
| ContactForm.ErrorMessage | components/ContactForm.tsx:54-74 | a failed response shows its `error` or "Failed to send message"; a throw shows its message, and one without a message (not an `Error`) shows "Something went wrong. Please try again." |
| ContactForm.ContactForm.constructor | components/ContactForm.tsx:13-22 | empty fields, no status, not submitting |
| ContactForm.ContactForm.Mount | components/ContactForm.tsx:24-28 | stores the mount time |
| ContactForm.ContactForm.HandleChange | components/ContactForm.tsx:30-33 | the form becomes `WithField` of the old form |
| ContactForm.ContactForm.Submit | components/ContactForm.tsx:35-49 | sets `isSubmitting`, clears the status and posts `RequestBody`; does nothing while a submission runs |
| ContactForm.ContactForm.Complete | components/ContactForm.tsx:50-77 | ok: the thank-you status and all four fields reset; otherwise the error status and fields kept; `isSubmitting` false either way |
| Hero.Step | components/Hero.tsx:29-49 | keeps the prefix invariant; typing extends by the role's next character; deleting drops the last one; an emptied text advances the role modulo 7 |
| Hero.FullRoleStartsDeleting | components/Hero.tsx:35-36 | a fully typed role switches to deleting and keeps its text |
| Hero.Delay | components/Hero.tsx:36-46 | 50 ms deleting, 100 ms typing, 2000 ms more when a full role is held |
| Hero.TypingPhase | components/Hero.tsx:32-34 | from any prefix, typing reaches the whole role |
| Hero.DeletingPhase | components/Hero.tsx:39-40 | deleting reaches the empty text |
| Hero.FullCycle | components/Hero.tsx:29-49 | 2n+2 ticks take role i with nothing shown to role i+1 (mod 7) with nothing shown |
| Hero.TypewriterEffect.constructor | components/Hero.tsx:19-21 | the first role, nothing shown, typing |
| Hero.TypewriterEffect.Tick | components/Hero.tsx:29-49 | the fields become `Step` of the old ones, keeping the invariant |
| Header.PrefixesAgree | components/Header.tsx:24 | two prefixes of one path agree where both are defined |
| Header.AtMostOneActive | components/Header.tsx:8-25 | no path activates two navigation items |
| Header.RootOnlyAtRoot | components/Header.tsx:21-23 | "/" is active exactly on "/" |
| Header.IsActiveLink | components/Header.tsx:20-25 | an active link's href is a prefix of the path; any href other than "/" that prefixes the path is active |
| Header.ProjectPageActivatesProjects | components/Header.tsx:24 | any "/projects/…" path activates "/projects" |
| Header.MobileMenu.constructor | components/Header.tsx:17 | the menu starts closed |
| Header.MobileMenu.Toggle | components/Header.tsx:61 | flips the menu |
| Header.MobileMenu.LinkClicked | components/Header.tsx:92-104 | any mobile link closes the menu |
| ProjectsData.ProjectBySlug | lib/projects-data.ts:71-73 | none exactly when no slug matches; a result carries the slug |
| ProjectsData.ProjectBySlugIsFirst | lib/projects-data.ts:71-73 | the first project with the slug is returned |
| ProjectsData.Featured | lib/projects-data.ts:75-77 | exactly the featured projects |
| ProjectsData.FeaturedAppend | lib/projects-data.ts:75-77 | filtering keeps the original order |
| ProjectsData.FeaturedOfAllFeatured | lib/projects-data.ts:75-77 | with every project featured, all are returned in order |
| ProjectsData.GetAllProjects | lib/projects-data.ts:79-82 | sorts the array in place and returns that same array |
| ProjectsData.GetAllProjectsSortsAndPermutes | lib/projects-data.ts:79-82 | the result is newest first and a permutation of the input |
| ProjectsData.GetAllProjectsIdempotent | lib/projects-data.ts:79-82 | a second call changes nothing |
| ProjectsData.ShippedQueries | lib/projects-data.ts:17-69 | on the shipped data both queries return all three projects in declared order |
| Ordering.SortDescIsSorted | lib/projects-data.ts:80-82 | the sort orders by key, largest first |
| Ordering.SortDesc | lib/projects-data.ts:80-82 | the sort keeps the length and is a permutation of its input |
| Ordering.SortDescIsStable | lib/projects-data.ts:80-82 | items with equal keys keep their order |
| Ordering.SortDescOfSorted | lib/projects-data.ts:80-82 | an already sorted list is unchanged |
| WorkflowCanvas.CalculateBounds | components/n8n/WorkflowCanvas.tsx:16-34 | the loop computes `BoundsOf`: offset = least x − 50, width = greatest x + 200 − least x + 100, likewise for y with 100 |
| WorkflowCanvas.BoundsOf | components/n8n/WorkflowCanvas.tsx:16-34 | no bounds exactly when there are no nodes |
| WorkflowCanvas.LeastIsLower | components/n8n/WorkflowCanvas.tsx:22-23 | the tracked minimum is at most every node's value |
| WorkflowCanvas.GreatestIsUpper | components/n8n/WorkflowCanvas.tsx:24-25 | the tracked maximum is at least every node's value |
| WorkflowCanvas.NodesInsideCanvas | components/n8n/WorkflowCanvas.tsx:16-34 | every node's shifted box lies within [50, width − 50] × [50, height − 50] |
| WorkflowCanvas.CanvasIsTight | components/n8n/WorkflowCanvas.tsx:16-34 | some node touches each of the four margins |
| WorkflowCanvas.DisplayedHeight | components/n8n/WorkflowCanvas.tsx:109 | min(height, 600); -Infinity with no nodes |
| WorkflowCanvas.FindNode | components/n8n/WorkflowCanvas.tsx:43 | none exactly when no node has the key as id or name |
| WorkflowCanvas.FindNodeIsFirst | components/n8n/WorkflowCanvas.tsx:43 | the first node named by the key is found |
| WorkflowCanvas.TargetsEdges | components/n8n/WorkflowCanvas.tsx:50-58 | one arrow per resolving target, from the source; every target resolving gives one arrow each |
| WorkflowCanvas.GroupsEdges | components/n8n/WorkflowCanvas.tsx:48-49 | every edge starts at the source node and ends at a node of the workflow |
| WorkflowCanvas.OutputsEdges | components/n8n/WorkflowCanvas.tsx:46-47 | every edge starts at the source node and ends at a node of the workflow |
| WorkflowCanvas.EntriesEdges | components/n8n/WorkflowCanvas.tsx:42-44 | every edge joins two nodes of the workflow |
| WorkflowCanvas.EntryEdges | components/n8n/WorkflowCanvas.tsx:42-46 | every arrow of an entry starts at a node named by its key |
| WorkflowCanvas.WorkflowEdges | components/n8n/WorkflowCanvas.tsx:42 | missing `connections` draws nothing; every arrow joins two nodes of the workflow |
| WorkflowCanvas.EntriesEdgesAppend | components/n8n/WorkflowCanvas.tsx:42 | arrows come out in the order of the connection entries |
| WorkflowCanvas.UnknownSourceDrawsNothing | components/n8n/WorkflowCanvas.tsx:44 | an entry whose key names no node adds nothing |
| WorkflowCanvas.DrawTargets | components/n8n/WorkflowCanvas.tsx:50-58 | the innermost loop computes `TargetsEdges` |
| WorkflowCanvas.DrawGroups | components/n8n/WorkflowCanvas.tsx:48-49 | the middle loop skips non-arrays and computes `GroupsEdges` |
| WorkflowCanvas.DrawOutputs | components/n8n/WorkflowCanvas.tsx:46-47 | the outer loop over output values skips non-arrays and computes `OutputsEdges` |
| WorkflowCanvas.RenderConnections | components/n8n/WorkflowCanvas.tsx:39-101 | the arrows are `WorkflowEdges`, each joining two nodes of the workflow |
| WorkflowCanvas.CreatePath | components/n8n/WorkflowCanvas.tsx:138-142 | the arrow leaves 20 px inside the source's right edge and enters 20 px inside the target's left edge, 40 px below their tops |
| WorkflowCanvas.ArrowEndsInsideCanvas | components/n8n/WorkflowCanvas.tsx:138-142 | both ends of every drawn arrow lie inside the canvas margins |
| WorkflowNode.StyleFor | components/n8n/WorkflowNode.tsx:20-29 | a non-grey style exactly for the eight table keys, and the i-th key gets the i-th style of the table |
| WorkflowNode.StyledKeysAreDistinct | components/n8n/WorkflowNode.tsx:20-29 | the table's eight keys are pairwise different, so each key has exactly one entry |
| Common.Lookup | components/n8n/WorkflowNode.tsx:32 | `table[key]`: missing exactly for a key not in the table; otherwise the value paired with the key's first position |
| WorkflowNode.TypeKey | components/n8n/WorkflowNode.tsx:31 | the text after the last dot, "default" when that is empty, the whole type when there is no dot |
| WorkflowNode.NodeStyle | components/n8n/WorkflowNode.tsx:32 | a node whose key is the i-th table key gets the i-th style; any other node gets the grey 📦 default |
| WorkflowNode.StyledIffKnownKey | components/n8n/WorkflowNode.tsx:20-32 | a node is specifically styled exactly when its key is in the table |
| WorkflowNode.PrefixIsIgnored | components/n8n/WorkflowNode.tsx:31 | the package prefix before the last dot does not affect the style |
| WorkflowNode.Label | components/n8n/WorkflowNode.tsx:64 | the upper-cased type key; empty for a type ending in a dot |
| WorkflowNode.DetailLines | components/n8n/WorkflowNode.tsx:74-83 | a "Model: " line and a "Path: /" line, each only when that parameter is a non-empty text |
| WorkflowCanvas.AdjustedX | components/n8n/WorkflowNode.tsx:14-16 | used by `NodesInsideCanvas`: a node is drawn at its position minus the offset |
| WorkflowCanvas.AdjustedY | components/n8n/WorkflowNode.tsx:14-16 | used by `NodesInsideCanvas`: a node is drawn at its position minus the vertical offset |
| WorkflowViewer.DescriptionFor | components/n8n/WorkflowViewer.tsx:87-96 | a description exactly for the eight table keys, and the i-th key gets the i-th description |
| WorkflowViewer.ViewerTypeKey | components/n8n/WorkflowViewer.tsx:98 | the text after the last dot, or the whole type |
| WorkflowViewer.NodeDescription | components/n8n/WorkflowViewer.tsx:84-99 | nothing exactly for a missing node; a node whose key is the i-th table key gets the i-th description; "Processes data in the workflow" for unknown keys |
| WorkflowViewer.DescribedIffStyled | components/n8n/WorkflowViewer.tsx:84-99 | a node has a specific description exactly when its card has a specific style |
| WorkflowViewer.FindById | components/n8n/WorkflowViewer.tsx:63 | nothing exactly when no node has the id; a node found is one of the workflow's and has the id |
| WorkflowViewer.FindByIdIsFirst | components/n8n/WorkflowViewer.tsx:63 | like `find`, the first node with the id is returned when several share it |
| WorkflowViewer.DetailsPanel | components/n8n/WorkflowViewer.tsx:60-76 | shown exactly when a non-empty id is selected; an unknown id shows "Node Details" and no description |
| WorkflowViewer.ClickedNodeDetails | components/n8n/WorkflowViewer.tsx:60-76 | a clicked node's panel shows its name (or "Node Details"), its type's last segment and its description |
| WorkflowViewer.WorkflowViewer.constructor | components/n8n/WorkflowViewer.tsx:15-19 | given at least one workflow (the first render reads `workflows[0]`), the first tab, no node selected |
| WorkflowViewer.WorkflowViewer.SelectTab | components/n8n/WorkflowViewer.tsx:28-31 | sets the tab and clears the node selection, hiding the panel |
| WorkflowViewer.WorkflowViewer.NodeClicked | components/n8n/WorkflowCanvas.tsx:128 | selects the clicked node's id |
| WorkflowViewer.WorkflowViewer.ShownPanel | components/n8n/WorkflowViewer.tsx:59-76 | the panel of the current workflow is shown exactly while a non-empty node id is selected |
| Demos.OnlyTextAnalysisIsInteractive | app/demos/page.tsx:6-35 | a demo is interactive exactly when it is "text-analysis" |
| Demos.LongWords | app/demos/page.tsx:57-58 | exactly the words longer than four characters |
| Demos.LongWordsAppend | app/demos/page.tsx:57-58 | filtering keeps the words' order |
| Demos.Keywords | app/demos/page.tsx:56-64 | the first three long words of the lower-cased, whitespace-split text (all of them when fewer), in order, or exactly ["no", "keywords", "found"] when there is none |
| Demos.KeywordsHaveNoSpace | app/demos/page.tsx:56 | no keyword holds white space |
| Demos.ThreeKeywordsAtMost | app/demos/page.tsx:59 | with three or more long words, exactly the first three are kept |
| Demos.DemosPage.constructor | app/demos/page.tsx:140 | "text-analysis" starts selected |
| Demos.DemosPage.Click | app/demos/page.tsx:155-156 | only an interactive demo becomes selected, so the selection never leaves "text-analysis" |
| Demos.DemosPage.ShowsSentimentDemo | app/demos/page.tsx:186 | no contract of its own: the sentiment demo is on the page exactly while "text-analysis" is selected |
| Demos.SentimentDemo.constructor | app/demos/page.tsx:38-44 | empty text, no result, not analysing |
| Demos.SentimentDemo.SetText | app/demos/page.tsx:79 | the text takes the typed value |
| Demos.SentimentDemo.AnalyzeEnabled | app/demos/page.tsx:86 | enabled exactly when the text is non-empty and no analysis runs |
| Demos.SentimentDemo.Analyze | app/demos/page.tsx:46-50 | from the enabled button: sets `isAnalyzing` and schedules the analysis of the current text |
| Demos.SentimentDemo.TimerFires | app/demos/page.tsx:50-67 | the result holds the drawn sentiment and confidence and the keywords of the text captured when scheduled; analysing ends |
| Sitemap.SiteUrl | app/sitemap.ts:5 | `NEXT_PUBLIC_SITE_URL` when non-empty, else "https://example.com" |
| Sitemap.StaticRoutes | app/sitemap.ts:9-46 | six routes in order: root, /work, /about, /blog, /contact, /demos |
| Sitemap.PageRoutes | app/sitemap.ts:48-60 | one monthly entry per page, in input order, dated by its publication |
| Sitemap.Build | app/sitemap.ts:4-63 | length 6 + projects + posts, starting with the static routes |
| Sitemap.EntriesFollowInputs | app/sitemap.ts:48-62 | project i is entry 6 + i under /work/ at 0.7; post j follows all projects under /blog/ at 0.6 |
| Sitemap.ProjectUrl | app/sitemap.ts:49 | no contract of its own: site address, "/work/", slug; `PageUrlsAreUnderSite` states its shape |
| Sitemap.PostUrl | app/sitemap.ts:56 | no contract of its own: site address, "/blog/", slug; `PageUrlsAreUnderSite` states its shape |
| Sitemap.PageUrlsAreUnderSite | app/sitemap.ts:49-56 | every page address starts with the site address, followed by "/work/" or "/blog/" and the slug |
| Sitemap.RootComesFirst | app/sitemap.ts:10-15 | the first entry is the site root at priority 1 |
| Rss.NewestFirst | app/rss.xml/route.ts:5-7 | the posts newest first, a permutation of the input |
| Rss.ItemOf | app/rss.xml/route.ts:20-27 | title, summary, link and guid equal to siteUrl/blog/slug, and the formatted date |
| Rss.Items | app/rss.xml/route.ts:18-29 | one item per post, in the given order |
| Rss.ConcatMap | app/rss.xml/route.ts:18-29 | no contract of its own: `map(...).join('')`; `Rss.ConcatMapAppend` states that it distributes over `+` |
| Rss.RenderItem | app/rss.xml/route.ts:20-27 | the item text: CDATA title, CDATA description, link, guid and pubDate, each between its tags, inside `<item>` |
| Rss.RenderItems | app/rss.xml/route.ts:29 | empty exactly when there are no items |
| Rss.RenderItemsSingleton | app/rss.xml/route.ts:20-29 | one item renders as that item's text alone |
| Rss.RenderItemsAt | app/rss.xml/route.ts:20-29 | the rendered list is the items before k, the k-th item's text, then the items after k |
| Rss.ConcatMapAppend | app/rss.xml/route.ts:18-29 | mapping and joining distributes over concatenation of the list |
| Rss.RenderItemsAppend | app/rss.xml/route.ts:29 | joining distributes over concatenation |
| Rss.HeadStartsWithSelfLink | app/rss.xml/route.ts:9-15 | the channel header carries the atom self link to siteUrl/rss.xml |
| Rss.Head | app/rss.xml/route.ts:9-18 | no contract of its own: the channel header template; `HeadStartsWithSelfLink` states that it opens with the self link |
| Rss.Feed | app/rss.xml/route.ts:9-31 | exactly the channel header, the rendered items of the posts newest first, and the closing tags; no posts gives header and close only |
| Rss.FeedStartsWithSelfLink | app/rss.xml/route.ts:9-15 | the feed opens with the `rel="self"` link to siteUrl/rss.xml (section 4.2.7 of RFC 4287) |
| Rss.FeedEndsWithClose | app/rss.xml/route.ts:30-31 | the feed ends by closing channel and rss |
| Rss.Get | app/rss.xml/route.ts:3-38 | the feed for the configured site, as "application/rss+xml; charset=utf-8" |
| Rss.FeedItemsArePostsNewestFirst | app/rss.xml/route.ts:5-31 | the feed text is the header, the items of the posts before k, the item of the k-th post, the items after it and the close, where the order is newest first and a permutation of the posts |
| Rss.ItemLinksAreInSitemap | app/rss.xml/route.ts:24-25 | every item's link is the address of an entry of the sitemap built from the same posts |

## Left out

- Browser speech engines, `fetch`, timers, `Date.now()`, `Math.random()` and the mail service are inputs; their internals are not modelled.
- Console logging, styling class names, JSX markup and scrolling effects are not modelled.
- String case mapping is ASCII only; `toLowerCase`/`toUpperCase` on other letters is not modelled. Lengths count characters, not UTF-16 code units.
- lib/content.ts and lib/knowledge-base.json are not part of this model: post and project lists and the knowledge base are parameters.
- Dates are whole numbers that order like the parsed dates; `toUTCString` is an input function.
- The zod email check is an input predicate.
- WorkflowCanvas.CreatePath: the curve's control-point offset `|targetX − sourceX| / 2` can be a half pixel and is left out; only the end points are modelled.
- WorkflowCanvas.CalculateBounds: node positions are whole pixels; fractional positions are not modelled.
- WorkflowNode.NodeStyle: a type key that names a built-in object member (such as "constructor") finds a function on the style object in the source; this is not modelled.
- WorkflowViewer.DescriptionFor: the same holds for the description table: a built-in member key such as "constructor" finds a function in the source, where the model finds no description.
- WorkflowViewer.NodeDescription: for a type such as "x.constructor" the source's `descriptions[typeKey] || …` yields that (truthy) function; the model gives "Processes data in the workflow".
- Rss.RenderItem: titles and summaries are placed in CDATA unescaped, as in the source; a "]]>" inside them is not treated specially.
- Hero.Step: the extra 2000 ms hold before deleting is folded into the switching tick's delay (`Hero.Delay`) rather than modelled as a separate timer.
- VoiceAgentV2.VoiceChat.RestartTimerFires: the timer's `startListening` is checked against the adapter's state when it fires; the source's closure may hold a stale `isListening`.
- VoiceAgentV2.VoiceChat.ReceiveReply: the session id sent with each request is not modelled.
- AssistantRoute.Post: the provider HTTP calls are one outcome parameter; their request headers and JSON shapes are not modelled. A provider reply whose `content` is null or missing is passed through as the response in the source; the model's outcome always carries a string.
- Demos.SentimentDemo.TimerFires: the confidence is taken as already rounded; the floating-point draw and `Math.round` are not modelled.
- Speech.SpeechAdapter: the model keeps one recogniser for the adapter's whole life. In the source the recogniser effect depends on `onTranscript`, which VoiceAgentV2 passes as a new arrow on every render, so each render stops the running recogniser and installs a fresh, unstarted one whose predecessor's onend then clears `isListening`; this tear-down and re-creation, and the `stop()` calls it makes, are not modelled.
- Speech.SpeechAdapter.LoadVoices: re-running on `onvoiceschanged` is the same method called again; the event itself is not modelled.
