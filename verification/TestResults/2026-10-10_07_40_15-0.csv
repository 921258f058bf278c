TestResult.DisplayName,TestResult.Outcome,TestResult.Duration,TestResult.ResourceCount,RandomSeed
Hermite.InterpAtStart (correctness),Failed,00:00:07.8015898,2015678,2
Hermite.InterpAtEnd (correctness),Failed,00:00:06.1256796,2015678,2
Hermite.EvalSample (correctness),Failed,00:00:01.0858382,2013959,2
Flat.PairsAppendFlatten (correctness),Passed,00:00:00.2368808,1094275,2
Flat.Flatten (well-formedness),Passed,00:00:00.1116959,24017,2
Flat.Pairs (well-formedness),Passed,00:00:00.1116400,60302,2
Flat.FlattenAppend (correctness),Passed,00:00:00.1033528,112079,2
Flat.PairsAppend (well-formedness),Passed,00:00:00.0865661,16678,2
Flat.PairsOfFlatten (correctness),Passed,00:00:00.0599499,156941,2
Flat.PairsAppend (correctness),Passed,00:00:00.0489609,187084,2
Flat.FlattenOfPairs (correctness),Passed,00:00:00.0380456,88410,2
Flat.FlattenIndex (correctness),Passed,00:00:00.0356811,72969,2
Flat.FlattenIndex (well-formedness),Passed,00:00:00.0279437,20100,2
Flat.PairsAppendFlatten (well-formedness),Passed,00:00:00.0225797,18597,2
Hermite.WindowTangents (correctness),Passed,00:00:00.0190305,10738,2
Flat.FlattenOfPairs (well-formedness),Passed,00:00:00.0188078,18230,2
Flat.FlattenAt (correctness),Passed,00:00:00.0169239,20901,2
Flat.FlattenAt (well-formedness),Passed,00:00:00.0161379,16686,2
Flat.FlattenSingle (correctness),Passed,00:00:00.0140239,22298,2
Hermite.BasisAtEnds (correctness),Passed,00:00:00.0136886,13926,2
Hermite.InterpExpanded (correctness),Passed,00:00:00.0125290,9182,2
Flat.AppendAssoc (correctness),Passed,00:00:00.0097870,9680,2
Hermite.Param (well-formedness),Passed,00:00:00.0086801,9592,2
Hermite.ParamAtEnds (correctness),Passed,00:00:00.0080251,7655,2
Hermite.ParamAtEnds (well-formedness),Passed,00:00:00.0067958,5535,2
