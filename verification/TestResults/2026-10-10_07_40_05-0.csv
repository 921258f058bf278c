TestResult.DisplayName,TestResult.Outcome,TestResult.Duration,TestResult.ResourceCount,RandomSeed
Hermite.InterpAtStart (correctness),Failed,00:00:06.9567758,2015662,1
Hermite.InterpAtEnd (correctness),Failed,00:00:05.2537145,2015662,1
Hermite.EvalSample (correctness),Failed,00:00:01.0902013,2013959,1
Flat.PairsAppendFlatten (correctness),Passed,00:00:00.3901080,1804073,1
Flat.Pairs (well-formedness),Passed,00:00:00.1442404,60287,1
Flat.Flatten (well-formedness),Passed,00:00:00.1392043,22689,1
Flat.FlattenAppend (correctness),Passed,00:00:00.1063833,157375,1
Flat.PairsAppend (well-formedness),Passed,00:00:00.0708512,16679,1
Flat.PairsAppend (correctness),Passed,00:00:00.0524751,202298,1
Flat.PairsOfFlatten (correctness),Passed,00:00:00.0440283,124556,1
Flat.FlattenOfPairs (correctness),Passed,00:00:00.0318578,81554,1
Flat.FlattenIndex (correctness),Passed,00:00:00.0285037,67288,1
Hermite.Param (well-formedness),Passed,00:00:00.0239520,8889,1
Flat.FlattenAt (correctness),Passed,00:00:00.0219830,21463,1
Flat.FlattenIndex (well-formedness),Passed,00:00:00.0208768,20091,1
Flat.PairsAppendFlatten (well-formedness),Passed,00:00:00.0207474,18598,1
Flat.FlattenSingle (correctness),Passed,00:00:00.0202506,22330,1
Hermite.InterpExpanded (correctness),Passed,00:00:00.0192258,9198,1
Flat.FlattenOfPairs (well-formedness),Passed,00:00:00.0188887,18231,1
Flat.FlattenAt (well-formedness),Passed,00:00:00.0157186,16687,1
Hermite.WindowTangents (correctness),Passed,00:00:00.0148287,10738,1
Hermite.BasisAtEnds (correctness),Passed,00:00:00.0145311,13942,1
Flat.AppendAssoc (correctness),Passed,00:00:00.0075065,9680,1
Hermite.ParamAtEnds (correctness),Passed,00:00:00.0067892,7967,1
Hermite.ParamAtEnds (well-formedness),Passed,00:00:00.0066511,5535,1
