TestResult.DisplayName,TestResult.Outcome,TestResult.Duration,TestResult.ResourceCount,RandomSeed
Report.ShowSummary (correctness),Failed,00:00:03.6545213,20078908,0
PyText.RstripEqualIff (correctness),Passed,00:00:00.1323002,411299,0
RunJournal.PrintsCallNothing (correctness),Passed,00:00:00.1142469,76384,0
Classifier.Judge (well-formedness),Passed,00:00:00.1126048,65689,0
ProgramExecution.Executor.Execute (correctness),Passed,00:00:00.1066960,98507,0
Report.ShowResult (well-formedness),Passed,00:00:00.1064905,77541,0
ProgramExecution.Executor.Execute (well-formedness),Passed,00:00:00.1011285,96226,0
Report.ShowDetail (correctness),Passed,00:00:00.1007085,181182,0
RunJournal.BuilderCountAppend (correctness),Passed,00:00:00.0978187,61346,0
PyText.Rstrip (well-formedness),Passed,00:00:00.0872218,50048,0
PyText.AllSpace (well-formedness),Passed,00:00:00.0827090,12653,0
Report.ShowResult (correctness),Passed,00:00:00.0794714,225563,0
Classifier.TrailingNewlineExample (correctness),Passed,00:00:00.0547253,136661,0
ProgramExecution.Executor.Build (well-formedness),Passed,00:00:00.0471255,50051,0
ProgramExecution.Executor._ctor (correctness),Passed,00:00:00.0395479,42133,0
Classifier.Classify (well-formedness),Passed,00:00:00.0368345,54925,0
PyText.RstripIgnoresTrailingSpace (correctness),Passed,00:00:00.0360187,60673,0
RunJournal.ExecutedAppend (correctness),Passed,00:00:00.0349056,113313,0
ProgramExecution.Executor.Build (correctness),Passed,00:00:00.0342558,55576,0
Report.StatusLinesSnoc (correctness),Passed,00:00:00.0334290,82623,0
Report.ShowSummary (well-formedness),Passed,00:00:00.0318809,78138,0
Report.DetailByStatus (well-formedness),Passed,00:00:00.0309689,74918,0
Classifier.ExitCodePrecedence (correctness),Passed,00:00:00.0299780,53953,0
RunJournal.BuildCountAppend (correctness),Passed,00:00:00.0290480,61441,0
Classifier.LiteralRefinesStripped (correctness),Passed,00:00:00.0282850,65048,0
Report.DetailByStatus (correctness),Passed,00:00:00.0282165,96668,0
Report.ShowDetail (well-formedness),Passed,00:00:00.0273669,66946,0
RunJournal.Prints (well-formedness),Passed,00:00:00.0258424,40545,0
Classifier.StrippedAcceptsTrailingSpace (well-formedness),Passed,00:00:00.0254261,50815,0
RunJournal.PrintsAppend (correctness),Passed,00:00:00.0251026,42691,0
PyText.Spaces (well-formedness),Passed,00:00:00.0239961,37025,0
PyText.RstripUnique (correctness),Passed,00:00:00.0239829,30617,0
Classifier.StrippedAcceptsTrailingSpace (correctness),Passed,00:00:00.0234595,62755,0
TestCaseEntity.UndyeDyed (correctness),Passed,00:00:00.0233724,45631,0
RunJournal.Journal.Print (well-formedness),Passed,00:00:00.0230690,25696,0
TestCaseEntity.Dyed (well-formedness),Passed,00:00:00.0227874,38412,0
Classifier.ClassifyLiteral (well-formedness),Passed,00:00:00.0222347,51434,0
Report.StatusLinesSnoc (well-formedness),Passed,00:00:00.0215373,55509,0
Report.SummaryLines (well-formedness),Passed,00:00:00.0213722,56346,0
TestCaseEntity.ColourInjective (correctness),Passed,00:00:00.0204060,52443,0
Report.StatusLines (well-formedness),Passed,00:00:00.0201123,56826,0
RunJournal.Journal.Record (well-formedness),Passed,00:00:00.0188836,20155,0
RunJournal.BuilderCount (well-formedness),Passed,00:00:00.0179719,26564,0
PyText.PadRight (well-formedness),Passed,00:00:00.0170713,25727,0
TestCaseEntity.Colour (well-formedness),Passed,00:00:00.0168687,35094,0
PyText.RstripIdempotent (correctness),Passed,00:00:00.0164613,26116,0
Report.StatusText (well-formedness),Passed,00:00:00.0161808,46902,0
RunJournal.BuildCount (well-formedness),Passed,00:00:00.0159877,26384,0
RunJournal.Executed (well-formedness),Passed,00:00:00.0150182,29263,0
RunJournal.Journal.Print (correctness),Passed,00:00:00.0136335,27815,0
PyText.RstripUnique (well-formedness),Passed,00:00:00.0130237,15501,0
RunJournal.Journal.Record (correctness),Passed,00:00:00.0119624,22303,0
Report.DetailLines (well-formedness),Passed,00:00:00.0113267,23743,0
TestCaseEntity.Undye (well-formedness),Passed,00:00:00.0105133,22459,0
RunJournal.Journal._ctor (correctness),Passed,00:00:00.0099769,11853,0
Classifier.BuildSucceeded (well-formedness),Passed,00:00:00.0089089,3855,0
