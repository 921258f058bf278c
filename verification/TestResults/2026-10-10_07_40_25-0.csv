TestResult.DisplayName,TestResult.Outcome,TestResult.Duration,TestResult.ResourceCount,RandomSeed
Hermite.InterpAtStart (correctness),Failed,00:00:08.3003457,2015678,3
Hermite.InterpAtEnd (correctness),Failed,00:00:06.2564166,2015678,3
Hermite.EvalSample (correctness),Failed,00:00:01.1583406,2013943,3
Flat.PairsAppendFlatten (correctness),Passed,00:00:00.4813510,1848162,3
Flat.PairsOfFlatten (correctness),Passed,00:00:00.2219788,612759,3
Flat.Pairs (well-formedness),Passed,00:00:00.1015891,46067,3
Flat.PairsAppend (well-formedness),Passed,00:00:00.0971512,16677,3
Flat.Flatten (well-formedness),Passed,00:00:00.0969378,22669,3
Flat.PairsAppend (correctness),Passed,00:00:00.0588685,147244,3
Flat.FlattenAppend (correctness),Passed,00:00:00.0373823,123492,3
Flat.FlattenIndex (correctness),Passed,00:00:00.0333105,68025,3
Flat.FlattenOfPairs (correctness),Passed,00:00:00.0319750,81650,3
Hermite.BasisAtEnds (correctness),Passed,00:00:00.0268788,13870,3
Flat.PairsAppendFlatten (well-formedness),Passed,00:00:00.0258071,18591,3
Flat.FlattenIndex (well-formedness),Passed,00:00:00.0236932,20090,3
Hermite.InterpExpanded (correctness),Passed,00:00:00.0210595,9200,3
Flat.FlattenOfPairs (well-formedness),Passed,00:00:00.0202826,18230,3
Hermite.WindowTangents (correctness),Passed,00:00:00.0199521,10738,3
Flat.FlattenSingle (correctness),Passed,00:00:00.0196434,21906,3
Flat.FlattenAt (correctness),Passed,00:00:00.0189145,21458,3
Flat.FlattenAt (well-formedness),Passed,00:00:00.0176914,16649,3
Hermite.ParamAtEnds (well-formedness),Passed,00:00:00.0141429,5535,3
Hermite.Param (well-formedness),Passed,00:00:00.0123471,9623,3
Flat.AppendAssoc (correctness),Passed,00:00:00.0120960,9276,3
Hermite.ParamAtEnds (correctness),Passed,00:00:00.0117260,7667,3
