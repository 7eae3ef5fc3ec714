TestResult.DisplayName,TestResult.Outcome,TestResult.Duration,TestResult.ResourceCount,RandomSeed
T.A (correctness),Passed,00:00:00.0932797,140203,0
T.L (well-formedness),Passed,00:00:00.0796129,76812,0
T.C (well-formedness),Passed,00:00:00.0379102,81130,0
T.C (correctness),Passed,00:00:00.0375810,149901,0
T.B (correctness),Passed,00:00:00.0368399,101109,0
