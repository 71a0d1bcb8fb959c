# Jira task assistant — a verified model of its data transforms

The system helps teams write Jira tasks with a language model. It has four parts:

- an Express server, which analyses a project's past issues, turns Markdown into Jira documents, reads Jira links and reports errors;
- a Forge plugin, which improves, files and clones issues and keeps per-category templates in the app's storage;
- a Chrome extension, whose background worker and popup build prompts, read the model's answers, check settings and format the text they copy;
- services shared between them, which parse and fill in the model's JSON output.

This project models the deterministic core of those parts: every step that turns records already in memory into other records, strings or counters. Network calls, the browser and the language model are outside it.

The model follows the programs' own shape:

- loops that update a counter, a bucket list or a text being built are Dafny methods, each proved against a function;
- the template store is a class whose `storage` map field is updated in place;
- everything else is functions on values.

Shared helpers:

- `Wrappers` (Option/Result);
- `Text`: JavaScript string operations, namely `trim`, `toLowerCase`, `includes`, `split`, `join`, the first-occurrence `replace`, and UTF-16 lengths;
- `Seqs` (filter, map, flatten);
- `Order` (a stable sort by descending count, and top-N);
- `Counter`: a JavaScript counter object, with keys in first-seen order;
- `Categories` (the category names).

## Model

| member | source | states |
|---|---|---|
| History.DetermineCategoryFromTask | src/services/historicalDataService.js:104-148 | every issue gets one of the five categories |
| History.CategoryByText | src/services/historicalDataService.js:111-127 | the first keyword group whose text words occur in the lowered summary and description decides, ahead of any label |
| History.CategoryByLabel | src/services/historicalDataService.js:129-144 | with no text hit, the first group one of whose labels equals a lowered label decides |
| History.CategoryDefault | src/services/historicalDataService.js:146-147 | with no text or label hit the category is Backend |
| History.MarkersIgnoreCase | src/services/historicalDataService.js:178-227 | the structure, criteria and technical tests give the same answer on the lowered text |
| History.QualityScore | src/services/historicalDataService.js:229-247 | the score never exceeds 100; its length bonuses (more than 0, 100 and 500) count UTF-16 units |
| History.WideCharacterCountsTwice | src/services/historicalDataService.js:235-237 | a character outside the Basic Multilingual Plane counts two units, so one such character and 99 others earn the bonus for more than 100 |
| History.CalculateQualityScore | src/services/historicalDataService.js:229-247 | the method adding the bonuses one by one, testing the UTF-16 length, computes the score, which equals the uncapped sum of the eight bonuses |
| History.CapNeverBinds | src/services/historicalDataService.js:229-247 | the bonuses total at most 100, so the cap of 100 never changes the sum |
| History.NoDescriptionScoresLow | src/services/historicalDataService.js:235-244 | an issue without description scores at most 20, so it is never high quality |
| History.AnalyzeTaskQuality | src/services/historicalDataService.js:155-171 | description and label flags agree with the lengths, which are UTF-16 lengths for the texts; the score is at most 100, and above 20 only with a description |
| History.ProcessHistoricalTask | src/services/historicalDataService.js:77-97 | the task's category is one of the five; a score above 20 implies a non-empty description; a named assignee comes from the issue |
| History.AnalyzePatterns | src/services/historicalDataService.js:254-295 | the counting loop yields category, priority, label and assignee counters that are the tallies of the tasks, and the three quality buckets are the filters at 80 and 60 |
| History.PatternTotals | src/services/historicalDataService.js:267-277 | category and priority counts each sum to the number of tasks, and label counts to the number of labels |
| History.UnassignedNotCounted | src/services/historicalDataService.js:280-282 | the unassigned marker 'Не назначен' is never counted as an assignee |
| History.BucketsPartition | src/services/historicalDataService.js:284-292 | the high, medium and low buckets partition the tasks (sizes and multisets), each in input order |
| History.GetCommonLabels | src/services/historicalDataService.js:353-367 | the counting loop yields the common labels of the tasks |
| History.CommonLabelsMembers | src/services/historicalDataService.js:353-365 | a label is common exactly when it occurs at least half as often as there are tasks |
| History.CommonLabelsOrdered | src/services/historicalDataService.js:364-366 | common labels are ordered by non-increasing count |
| History.CommonLabelsTies | src/services/historicalDataService.js:364-366 | among labels of equal count, first-seen order is kept |
| History.GetCommonPriority | src/services/historicalDataService.js:374-383 | the counting loop yields the mode of the priorities |
| History.CommonPriorityIsMode | src/services/historicalDataService.js:374-383 | the priority is absent only for no tasks; otherwise it occurs, no priority is more frequent, and of equally frequent ones it is first seen |
| History.GetCommonAssignee | src/services/historicalDataService.js:390-403 | the counting loop yields the assignee rule of the mode of the assigned names |
| History.CommonAssigneeRule | src/services/historicalDataService.js:390-403 | with nobody assigned the rule is 'auto-assign'; otherwise the chosen name is assigned and no name is assigned more often |
| History.ExtractDescriptionStructure | src/services/historicalDataService.js:423-454 | the line loop yields the structure of the description's lines |
| History.StructureFlags | src/services/historicalDataService.js:423-454 | the section flags agree with the section list of the structure |
| History.StructureGoal | src/services/historicalDataService.js:433-437 | the goal flag holds exactly when some line mentions the goal |
| History.MajorityBounds | src/services/historicalDataService.js:461-470 | a flag set by strict majority needs one witness, holds when all agree, and fails on an exact half |
| History.SelectedSections | src/services/historicalDataService.js:477-500 | one section per set flag |
| History.BuildDescriptionTemplate | src/services/historicalDataService.js:477-500 | the template is the selected sections, then the priority line, then the assignee line |
| History.DescriptionTemplateShape | src/services/historicalDataService.js:477-500 | every template ends with the priority and then the assignee line, and starts with the goal marker exactly when the goal is set |
| History.CreateDescriptionTemplate | src/services/historicalDataService.js:410-416 | the template is built from the majority structure of the tasks' descriptions |
| History.CalculateAverageQuality | src/services/historicalDataService.js:507-510 | absent for no tasks, otherwise the mean score rounded half up |
| History.AverageQualityBounds | src/services/historicalDataService.js:507-510 | the average of scores within [0,100] stays in [0,100] |
| History.CreateTemplateFromTasks | src/services/historicalDataService.js:325-346 | name, title, common labels, mode priority, assignee rule, description template, average quality and basedOn count of a category's template |
| History.InCategory | src/services/historicalDataService.js:308 | the tasks kept for a category are exactly those of that category |
| History.ProcessedTasksDescribed | src/services/historicalDataService.js:77-97 | a processed task scoring at least 80 always carries a description |
| History.CreateTemplatesFromHistory | src/services/historicalDataService.js:302-317 | the loop over categories builds one template per group of high-quality tasks, in category order |
| History.GroupsForMembers | src/services/historicalDataService.js:302-317 | there is a group for a category exactly when it is listed and has a high-quality task |
| History.TemplatesFromHistory | src/services/historicalDataService.js:302-317 | a template exists for category c exactly when some task of c scores at least 80; groups are distinct and hold exactly those tasks |
| History.HighInCategoryIff | src/services/historicalDataService.js:309-313 | a category's high-quality group is non-empty exactly when one of its tasks scores at least 80 |
| Project.ExtractDescription | src/services/projectAnalyzer.js:131-138 | a missing description gives '', a string is kept as it is, and a document without content gives '' |
| Project.DetectCategory | src/services/projectAnalyzer.js:119-129 | the result is one of the five names, or 'Other' exactly when no keyword group matches |
| Project.DetectFirstMatch | src/services/projectAnalyzer.js:119-129 | the first matching group, in the order Backend, Frontend, DevOps, Analytics, Infrastructure, decides |
| Project.SpansAreRuns | src/services/projectAnalyzer.js:141-143 | the scanner finds exactly the maximal runs of word characters |
| Project.WordsAreRuns | src/services/projectAnalyzer.js:141-143 | the words are exactly the maximal runs of at least four word characters |
| Project.TermsAreWords | src/services/projectAnalyzer.js:140-149 | the terms are the words of the lowered text, except 'with' |
| Project.TermFrequency.ExtractTerms | src/services/projectAnalyzer.js:140-149 | the caller's counter gains one count per term occurrence |
| Project.ExtractTermsCounts | src/services/projectAnalyzer.js:140-149 | each term's count rises by its number of occurrences, and 'with' never changes |
| Project.CountIssues | src/services/projectAnalyzer.js:77-93 | the counting loop yields the counters of the issues |
| Project.PerformAnalysis | src/services/projectAnalyzer.js:70-117 | the total is the number of issues; category, priority and status counters are tallies; top labels and terms are the first 20 and 30 by count; plus the best examples |
| Project.AnalysisTotals | src/services/projectAnalyzer.js:77-93 | category, priority and status counts each sum to the number of issues |
| Project.TopListsBounded | src/services/projectAnalyzer.js:95-103 | at most 20 labels and 30 terms, every label taken from the issues |
| Project.BestIssues | src/services/projectAnalyzer.js:151-170 | at most five issues, each with a description longer than 100 UTF-16 units, by non-increasing UTF-16 length, drawn from the input |
| Project.BestIssuesDominate | src/services/projectAnalyzer.js:151-170 | an issue left out has a description no longer (in UTF-16 units) than any chosen one, and then five were chosen |
| Project.FindBestExamples | src/services/projectAnalyzer.js:151-170 | at most five examples, one per chosen issue in the chosen order, each that issue's key, summary, category, priority and status |
| JiraDoc.NodeOf | src/services/jiraService.js:206-218 | a line wrapped in '**' becomes strong text without the stars; any other line is plain text |
| JiraDoc.ClassifyItem | src/services/jiraService.js:181-199 | a line is a list item exactly when its trimmed form starts with '- ' |
| JiraDoc.ConvertToJiraFormat | src/services/jiraService.js:130-233 | the line loop with an open paragraph and an open list yields the conversion, which is well formed |
| JiraDoc.ConvertWellFormed | src/services/jiraService.js:139-230 | only non-empty paragraphs, level-3 headings and non-empty bullet lists are emitted |
| JiraDoc.BlankConvert | src/services/jiraService.js:131-151 | empty or all-blank input gives no blocks |
| JiraDoc.ConvertCounts | src/services/jiraService.js:154-218 | list items, headings and text nodes number exactly the item lines, heading lines and other non-blank lines |
| JiraDoc.ClassifyKinds | src/services/jiraService.js:137-205 | a line is an item, a heading or text exactly by its trimmed form |
| JiraDoc.ParagraphAfterList | src/services/jiraService.js:181-205 | for 'Intro', '- a', 'More' the list is emitted before the paragraph holding the line above it |
| JiraDoc.ConvertInOrderKeepsOrder | src/services/jiraService.js:130-233 | with the paragraph flushed before a list opens, the texts come out in line order |
| JiraDoc.MapPriority | src/services/jiraService.js:240-249 | Low→Lowest, Critical→Highest, High→High, anything else→Medium |
| UrlKeys.IssueKeyLeftmost | src/services/jiraUrlParser.js:33-34 | an issue key is found exactly when some position starts `[A-Z]+-\d+`, and it is the match at the leftmost such position |
| UrlKeys.IssueKeyAfter | src/services/jiraUrlParser.js:33-34 | a key preceded by text without capital letters and followed by a non-digit is the one extracted |
| UrlKeys.Capture | src/services/jiraUrlParser.js:37-42 | a captured value is non-empty and in its character class, and exists exactly when the marker is followed by one |
| UrlKeys.CaptureFront | src/services/jiraUrlParser.js:37-42 | the value right after the marker is captured |
| JiraUrl.ParseJiraUrl | src/services/jiraUrlParser.js:28-55 | an address the URL parser refuses gives the prefixed error; otherwise base and original URL are kept, the keys are the regex captures, and valid exactly when an issue or project key is present |
| JiraUrl.ParseBrowseUrl | src/services/jiraUrlParser.js:28-55 | a browse link is valid and yields its issue key |
| JiraUrl.ParseBoardUrl | src/services/jiraUrlParser.js:28-55 | a board link with projectKey= is valid and yields its project key |
| JiraUrl.DetermineCategory | src/services/jiraUrlParser.js:238-279 | every issue gets one of the five categories |
| JiraUrl.CategoryBySummary | src/services/jiraUrlParser.js:243-258 | the first group whose keyword the lowered summary contains decides |
| JiraUrl.CategoryByLabel | src/services/jiraUrlParser.js:260-278 | with no summary hit, the first group with an equal lowered label decides |
| JiraUrl.ServerIsBackend | src/services/jiraUrlParser.js:250-257 | a summary mentioning 'server' is Backend |
| JiraUrl.InfrastructureSource | src/services/jiraUrlParser.js:238-279 | an infrastructure issue mentions 'infrastructure' or 'system' in its summary or labels |
| JiraUrl.CreateDescriptionFromIssue | src/services/jiraUrlParser.js:287-307 | the appending method yields the description of the issue |
| JiraUrl.DescriptionOpening | src/services/jiraUrlParser.js:288-294 | the header comes first, followed by the original block exactly when the original description is non-empty, else by the status line |
| JiraUrl.DescriptionClosing | src/services/jiraUrlParser.js:298-304 | the description ends with the additional information when given, else with the labels line when there are labels |
| JiraUrl.GetDefaultAssignee | src/services/jiraUrlParser.js:314-324 | every category gets 'user@example.com' |
| JiraUrl.MapPriority | src/services/jiraUrlParser.js:331-341 | Highest and High give High, Low and Lowest give Low, anything else Medium |
| JiraUrl.ExtractLabels | src/services/jiraUrlParser.js:348-350 | the issue's labels, or none |
| GeneratedContent.JsonSpanExists | src/services/openaiService.js:105-108 | a span exists exactly when a '{' precedes a '}', and it runs from the first '{' to the last '}' |
| GeneratedContent.JsonSpanOf | forge-plugin/src/services/openaiService.js:112-115 | with no '{' before the body's opening brace and no '}' after its closing one, the span is the braced body |
| GeneratedContent.MissingFieldsIff | src/services/openaiService.js:112-113 | a field is reported missing exactly when it is required and its value is falsy |
| GeneratedContent.MissingFieldsOrder | forge-plugin/src/services/openaiService.js:119-120 | missing fields keep the order of the required list |
| GeneratedContent.ParseGeneratedContent | src/services/openaiService.js:103-125 | no span gives the no-JSON error; success returns the decoded span, and only when every required field is truthy |
| GeneratedContent.ParseTaskContent | forge-plugin/src/services/openaiService.js:110-131 | accepted content has a truthy task summary, goal, tasks and acceptance criteria |
| GeneratedContent.MissingFieldsRefused | src/services/openaiService.js:112-117 | a decoded object lacking required fields is refused with the error listing the missing ones, joined by ", " |
| GeneratedContent.EmptyObjectRefused | src/services/openaiService.js:112-117 | an empty object is refused, the error listing all four required fields in their declared order |
| GeneratedContent.BulletsLines | src/services/openaiService.js:143-144 | the tasks text splits into one '- ' line per item |
| GeneratedContent.FormatContentByTemplate | forge-plugin/src/services/openaiService.js:139-172 | the step-by-step rewriting yields the title with its summary placeholder replaced, each placeholder replaced at its first occurrence, the labels or none, and the priority or 'Medium' |
| GeneratedContent.OptionalPlaceholders | src/services/openaiService.js:142-159 | the fixed placeholders are always replaced, the optional ones only when their field is truthy |
| GeneratedContent.ReplaceEachUntouched | src/services/openaiService.js:148-159 | a text without the placeholders is left unchanged |
| SimpleAi.CategoryFromUrl | src/services/simpleOpenAIService.js:190-210 | every address gets one of the five categories |
| SimpleAi.CategoryFromUrlFirst | src/services/simpleOpenAIService.js:190-207 | the first group whose keyword the lowered address contains decides |
| SimpleAi.CategoryFromUrlDefault | src/services/simpleOpenAIService.js:209 | with no keyword the category is Backend |
| SimpleAi.ParseJiraUrl | src/services/simpleOpenAIService.js:161-183 | a refused address gives the prefixed error; otherwise valid exactly when an issue key is present |
| SimpleAi.ProjectKeyAloneInvalid | src/services/simpleOpenAIService.js:166-178 | a board link with only a project key is invalid here, but valid for the full parser |
| SimpleAi.BuildPromptEmbeds | src/services/simpleOpenAIService.js:57-90 | the prompt contains the category and the description verbatim |
| SimpleAi.ParseGeneratedContent | src/services/simpleOpenAIService.js:97-118 | accepted content has a truthy title, description, priority and labels |
| SimpleAi.MissingPriorityAndLabels | src/services/simpleOpenAIService.js:99-111 | an answer lacking priority and labels is refused naming those two, in that order |
| SimpleAi.RequestFromUrl | src/services/simpleOpenAIService.js:126-154 | no issue key fails before any generation; otherwise the request carries the key, the address, the address's category and the prompt with the key appended |
| SimpleAi.RequestNamesKey | src/services/simpleOpenAIService.js:136-142 | the prompt names the issue key and the category |
| HistoryController.Selected | src/controllers/historicalController.js:223-225 | at most five qualifying tasks, all of them when fewer |
| HistoryController.SelectedInInputOrder | src/controllers/historicalController.js:223-225 | the selection is the first qualifying tasks in input order, unaffected by later tasks |
| HistoryController.BuildHistoricalContext | src/controllers/historicalController.js:222-244 | the appending loop yields the context of the tasks |
| HistoryController.ContextEmptyIff | src/controllers/historicalController.js:223-229 | the context is empty exactly when no task scores at least 70 |
| HistoryController.ContextOpening | src/controllers/historicalController.js:231-234 | the context starts with the header and entry '1.' holding the first qualifying summary |
| HistoryController.ExcerptShape | src/controllers/historicalController.js:237-239 | an excerpt appears exactly for descriptions longer than 50 units, and is a prefix of at most 200 units followed by '...' |
| HistoryController.GenerateRecommendations | src/controllers/historicalController.js:252-311 | the pushing method yields the recommendations of the patterns |
| HistoryController.TopNoteShape | src/controllers/historicalController.js:256-292 | a top list is added exactly when its counter is non-empty, holds at most n entries by non-increasing count, drawn from the counter |
| HistoryController.RecommendationsOfTasks | src/controllers/historicalController.js:252-311 | between one and four recommendations, the last being the quality note whose bucket sizes sum to the number of tasks |
| HistoryController.StatsTotals | src/controllers/historicalController.js:329-346 | the total is the number of tasks, the bucket sizes sum to it, and so do the category counts |
| HistoryController.StatsTopLabels | src/controllers/historicalController.js:339-341 | at most ten labels by non-increasing count, each a label of the tasks |
| Background.BuildPromptEmbeds | chrome-extension/background.js:141-160 | the prompt quotes the category, contains the description, and ends with the response format |
| Background.LineField | chrome-extension/background.js:172-180 | a line sets the first field, in the order title, description, labels, priority, whose marker begins it, and none when no marker does |
| Background.ParseOpenAIResponse | chrome-extension/background.js:162-184 | the line loop yields the fold of the lines |
| Background.LastMarkerWins | chrome-extension/background.js:171-181 | the last line carrying a field's marker decides that field |
| Background.UnmarkedFieldEmpty | chrome-extension/background.js:163-170 | a field no line marks stays '' |
| Background.OtherLinesIgnored | chrome-extension/background.js:172-180 | an indented or lower-case line sets nothing |
| Background.AnswerFieldsSingleLine | chrome-extension/background.js:173-180 | no field read from an answer holds a line break |
| Background.IsJiraUrl | chrome-extension/background.js:186-195 | a missing or empty address is never a Jira page (popup.js repeats the same test) |
| Background.IsJiraUrlIgnoresCase | chrome-extension/background.js:186-195 | letter case in the address does not matter |
| Background.CloudSiteIsJira | chrome-extension/background.js:186-195 | every page of an Atlassian cloud site is a Jira page |
| Popup.BuildPromptNamesCategory | chrome-extension/popup.js:212-233 | with a category the prompt starts with its opening, the description after it, and asks to align with it |
| Popup.OpeningNamesCategory | chrome-extension/popup.js:213-216 | a non-empty category is named in the opening sentence and on a `Category:` line of its own |
| Popup.BuildPromptTail | chrome-extension/popup.js:227-233 | the prompt ends with the hint line, a blank line and the response format, so "….\n\n\nResponse format:" |
| Popup.BuildPromptWithoutCategory | chrome-extension/popup.js:212-233 | without a category the prompt carries no category lines |
| Popup.UnmarkedFieldsEmpty | chrome-extension/popup.js:236-254 | a field whose marker does not occur, in any case, stays '' |
| Popup.LineFieldSingleLine | chrome-extension/popup.js:244-247 | title, labels and priority never hold a line break |
| Popup.LineFieldAtFirstMarker | chrome-extension/popup.js:244-247 | when a value follows the first case-insensitive occurrence of the marker, the field is the rest of that line after the whitespace, trimmed |
| Popup.TitleOnNextLine | chrome-extension/popup.js:244 | the whitespace after the marker may include a newline, so a title on the next line is read |
| Popup.DescriptionAtFirstMarker | chrome-extension/popup.js:245 | the description runs from the first marker up to the next LABELS: or PRIORITY:, or to the end, trimmed |
| Popup.DescriptionSpansLines | chrome-extension/popup.js:245 | a description may span several lines |
| Popup.DescriptionOfColonFree | chrome-extension/popup.js:245 | after the marker, a colon-free body starting with no space is the whole description, trimmed |
| Popup.SaveKey | chrome-extension/popup.js:576-591 | a key is saved exactly when it is not blank and starts with 'sk-' before trimming; the stored key is trimmed and still starts with 'sk-'; a blank key asks for one |
| Popup.LeadingSpaceRefused | chrome-extension/popup.js:583-586 | a key with leading space is refused, although it would start with 'sk-' once trimmed |
| Popup.SaveKeyIdempotent | chrome-extension/popup.js:576-591 | saving the stored key again stores the same key |
| Popup.CopyAllLines | chrome-extension/popup.js:359 | the copied text's lines are the title line, a blank line, 'Description:', the description's lines, a blank line, the labels line and the priority line |
| ForgeIndex.ShouldEnhanceIssue | forge-plugin/src/index.js:53-57 | missing labels never trigger enhancement, and 'ai-enhance' always does |
| ForgeIndex.ShouldEnhanceIff | forge-plugin/src/index.js:53-57 | enhancement happens exactly when a label is 'ai-enhance' or 'auto-generate' |
| ForgeIndex.ShouldEnhanceMonotone | forge-plugin/src/index.js:53-57 | adding labels never withdraws an issue from enhancement |
| ForgeIndex.DetermineCategory | forge-plugin/src/index.js:91-102 | every issue gets one of the five categories |
| ForgeIndex.DetermineCategoryFirstHit | forge-plugin/src/index.js:95-99 | the first keyword, in the order DevOps, analytics, backend, frontend, infrastructure, found in the lowered summary or equal to a lowered label decides |
| ForgeIndex.DetermineCategoryDefault | forge-plugin/src/index.js:101 | with no keyword the category is Backend |
| ForgeIndex.LabelCaseIgnored | forge-plugin/src/index.js:93-95 | a label matches whatever its case |
| ForgeIndex.EnhancedLabels | forge-plugin/src/index.js:81 | the issue's labels form the prefix and the generated ones the rest |
| ForgeIndex.EnhancedLabelsTwice | forge-plugin/src/index.js:148 | enhancing twice keeps the first round's labels in front |
| ForgeIndex.ParseCloneSummary | forge-plugin/src/index.js:187 | a summary read back rebuilds the same summary |
| ForgeIndex.CloneSummaryRoundTrip | forge-plugin/src/index.js:187 | a category without ']' and the source summary are recovered from the clone's summary |
| ForgeIndex.ChosenCategoryRoundTrip | forge-plugin/src/index.js:176-187 | every category the plugin chooses survives the round trip |
| ForgeIndex.CloneTask | forge-plugin/src/index.js:174-191 | the clone's summary is the bracketed category and the source summary, and reads back as that pair; the description is the generated one; the labels are the source's followed by the generated ones; the issue type is the requested one, or Task when none is given |
| Templates.DefaultTemplatesKeys | forge-plugin/src/services/templateService.js:57-119 | the defaults hold exactly the five categories |
| Templates.DefaultTemplatesShape | forge-plugin/src/services/templateService.js:57-119 | each default is named after its key, titled '[name] {{task_summary}}', ending with the priority then the assignee placeholder, with a team that has a default assignee |
| Templates.TemplateFor | forge-plugin/src/services/templateService.js:16 | the category's template, else the Backend one, else nothing |
| Templates.AssigneeFor | forge-plugin/src/services/templateService.js:129 | a non-empty entry for the key is returned, otherwise the 'backend-team' address, or none when that is missing too; any answer is one of the stored addresses |
| Templates.CategoryNameFallsBack | forge-plugin/src/services/templateService.js:126-134 | asking the defaults with a category name gets the backend team's address |
| Templates.WithTemplate | forge-plugin/src/services/templateService.js:32 | one category is set, and every other category and all assignees are kept |
| Templates.SavedTemplateRead | forge-plugin/src/services/templateService.js:29-33 | a saved template is the one read back for its category |
| Templates.WithAssignees | forge-plugin/src/services/templateService.js:144 | new keys override, untouched keys keep their values, templates are kept |
| Templates.WithAssigneesTwice | forge-plugin/src/services/templateService.js:141-145 | merging twice is merging once with the later map winning |
| Templates.TemplateService.AllTemplates | forge-plugin/src/services/templateService.js:44-51 | the stored set after a successful read, the defaults when the read fails or nothing is stored |
| Templates.TemplateService.GetTemplate | forge-plugin/src/services/templateService.js:13-21 | the stored lookup with Backend fallback, or the default Backend template when the read fails |
| Templates.TemplateService.GetDefaultAssignee | forge-plugin/src/services/templateService.js:126-134 | the assignee lookup, with its backend-team fallback, on the stored set, or on the defaults when the read fails or nothing is stored |
| Templates.TemplateService.SaveTemplate | forge-plugin/src/services/templateService.js:29-38 | on success the stored set has the category replaced and reads it back; on failure nothing is stored and the error names the category and cause |
| Templates.TemplateService.UpdateDefaultAssignees | forge-plugin/src/services/templateService.js:141-150 | unless the write fails, the merged set is stored and every new non-empty address is read back; a failed write stores nothing |
| Errors.PassClientStatus | src/middleware/errorHandler.js:25 | a client error status passes through, any other becomes 500 |
| Errors.ServiceName | src/middleware/errorHandler.js:29 | 'OpenAI' exactly when the request address contains 'openai', else 'Jira' |
| Errors.ErrorHandler | src/middleware/errorHandler.js:8-48 | status within [400,503]; a Joi error gives 400 with its first detail; 503 exactly for a refused or unresolved connection without a response; outside development an internal error hides its message |
| Errors.JoiComesFirst | src/middleware/errorHandler.js:12-18 | a Joi error is answered the same whatever response or code it also carries |
| Errors.ServiceErrorReply | src/middleware/errorHandler.js:21-31 | a response decides before the code: status passed or 500, the service's message when it sent one, and the service name |
| Errors.InternalMessageHidden | src/middleware/errorHandler.js:42-47 | everything else is 500, exposing the raw message only in development |

## Left out

- Network and SDK calls (Jira, OpenAI, Forge storage and APIs) are not modelled. Their results are inputs; a storage failure is the `StorageIo` parameter of the template service.
- `JSON.parse` is the `decode` parameter of the content parsers. `new URL(...)` is the `parsed` parameter of the URL parsers, holding the protocol and host or the parser's error.
- The call to the language model in `generateTaskFromUrl` is not modelled. `SimpleAi.RequestFromUrl` stops at the request it would send.
- The ADF-document branch of `extractDescription` is not modelled, because it is `JSON.stringify`. Only a document without content is stated.
- DOM, tab, clipboard, context-menu and messaging code in the extension is not modelled; neither are `chrome-extension/content.js`, the Forge UI, the Express app, routes and controllers' validation. `CopyAllText` models only the text handed to the clipboard.
- The Forge `run` event dispatch and the `/api/automation` router are not modelled; they only route to the modelled functions. `createFromTemplate` is not modelled, because it only copies generated fields.
- `Text.ToLower` models `toLowerCase` for ASCII, Latin-1 and the Cyrillic capitals U+0400–U+042F only; regular expressions with `/i` fold ASCII letters only.
- `$` patterns in `String.replace` replacement strings are not modelled: generated content is taken to contain no `$`.
- Counter objects keep keys in first-seen order. The order JavaScript gives integer-like keys (numeric labels or priorities) is not modelled.
- Keys inherited from `Object.prototype` (a label named `constructor`, say) are not modelled.
- The quality note of `generateRecommendations` is not modelled in full. The source adds the three bucket arrays with `+`, which joins them into a string (src/controllers/historicalController.js:296), then divides an array by that string (line 297), so the percentage and its message carry NaN. Its `data.high`, `data.medium` and `data.low` are the bucket arrays themselves (lines 303-305); `QualityNote` holds their sizes instead, and `HistoryController.RecommendationsOfTasks` states those sizes.
- The `templates` count in `getHistoricalStats` is a parameter of `HistoricalStats`, not recomputed.
- The `success: false` member of every error body is not modelled.
- The `catch` branch of `getDefaultAssignee` in forge-plugin/src/services/templateService.js:126-134, which answers 'user@example.com', is not modelled. `getAllTemplates` already catches a failed read, so only a stored set without `default_assignees` would reach it, and a `TemplateSet` always has that map.
- Errors.ErrorHandler: requires a Joi error to carry at least one detail, which Joi guarantees; without it the source would throw.
- `Background.IsJiraUrl`: its contract states only that a missing address is refused. The positive cases are stated by `Background.CloudSiteIsJira` and `Background.IsJiraUrlIgnoresCase`.
- Lines ending in `\r\n` are not given their own lemma. The popup's title, labels and priority patterns then read nothing, because `.` does not match `\r` and the value must run to a line end.
- UTF-16: strings are sequences of code points. Where the source takes `.length` or cuts by units, the model counts UTF-16 units (`Text.Utf16Length`): the quality bonuses and quality analysis, the best-example filter and sort key, the two units dropped from a heading line, and the 50- and 200-unit description excerpt.
- `Text.TakeUnits` and `Text.DropUnits`: where `substring` would cut a surrogate pair in half, they leave the whole character out, because a sequence of code points cannot hold a lone surrogate.

## Findings

| source | as written | input that shows it | evidently intended | confidence | as-written member | corrected member |
|---|---|---|---|---|---|---|
| src/services/jiraService.js:181-205 | a list item does not close the open paragraph, so the paragraph is emitted after the list that follows it | "Intro\n- a\nMore" gives the list [a] first and then the paragraph [Intro, More] | blocks appear in the order of their lines: paragraph [Intro], list [a], paragraph [More] | not executed | JiraDoc.ParagraphAfterList | JiraDoc.ConvertInOrderKeepsOrder |
