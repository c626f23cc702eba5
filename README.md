# PTE scoring engines and pet-shelter lifecycle, modelled in Dafny

This project models the deterministic core of a repository with two halves.

**Text scoring for PTE Academic speaking and writing responses.**
- `PTEScorer` turns a text into five dimension scores: fluency, lexical resource, grammar, oral fluency and a pronunciation proxy. It combines them with fixed weights, truncates the composite onto the 10-90 band in steps of ten, and maps the band to a 0-90 section score.
- `compute_pte_scores` is a four-dimension variant. Each sub-score is clamped to 10-90, and the overall score is the truncated mean.
- `compute_scores` is a deterministic placeholder scorer.
- Around these engines sit two record stores:
  - the scoring workflow, with its key-wise blend of NLP and AI scores;
  - the job orchestrator, with its allowed-transition table for scoring jobs.

**The pet-shelter workflow.**
- A pet store: a counter and a table of pets.
- HTTP steps that create and update pets.
- A table-driven lifecycle orchestrator: transition rules, guards, an idempotency check, flag actions, follow-up topics and automatic progressions.
- A daily deletion reaper.
- Rule tables that turn symptoms into a treatment schedule, a treatment into a recovery plan, and a pet into an adoption posting.

## How the source maps onto the model

There is one Dafny module per source file. `common.dfy` and `text.dfy` hold what several modules share:
- an `Option` type;
- a JSON value type;
- Python's `int()`, `min`, `max`, `.lower()`, `.split()`, `.strip()` and `str(n)`;
- substring search.

**Stores become classes.** The code that updates stores in place becomes a class whose map field is updated:
- `PetStore.PetStore`: the `{seq, pets}` file;
- `JobOrchestrator.WorkflowOrchestrator`: the Redis job records;
- `WorkflowOrchestrator.ScoringWorkflow`: the Redis workflow records.

Each such method is specified by a pure function of the old record (`WithStatus`, `Patched`, `SoftDeleted`, `WithState`, `WithEnrichment`, ...). The lemmas are stated about those functions.

**The source's loops become methods with loop invariants**, proved equal to the functions the lemmas reason about:
- the accumulating loops of `_score_grammar`, `_score_pronunciation`, `_count_fillers`, `_count_syllables` and `aggregate_scores`;
- the reaper;
- `list_all` and the purge scan;
- the builders that grow lists of medications, instructions, checks, milestones, indicators and requirements.

**Arithmetic** is over `real`. Python's `int()` on a float truncates toward zero, which `Common.Trunc` models for negative values too. On the non-negative values every scoring formula produces, this agrees with floor.

**Clocks and fresh ids are parameters.** The clock (`now`), the fresh uuid (`jobId`, `workflowId`) and the incoming event are parameters.

**Raised exceptions become outcome values.** `ValueError` in the job orchestrator becomes `JobNotFound` or `CannotTransition`. An exception that escapes a handler becomes a `Crashed` outcome.

## Model

| member | source | states |
|---|---|---|
| Common.Trunc | services/scoring_api/app/core/pte_nlp_scorer.py:77 | `int()` of a float: the integer at or below a non-negative value, and at or above a negative one, less than one away |
| Common.Clamp | services/scoring_api/app/core/pte_nlp_scorer.py:77 | `max(lo, min(hi, x))` lies in [lo,hi] and is `x` itself when `x` already lies there |
| Text.Lower | services/scoring_api/app/core/pte_scorer.py:141 | `.lower()` keeps the length and lower-cases each character on its own |
| Text.Split | services/scoring_api/app/core/pte_scorer.py:141 | every token of `.split()` is non-empty and holds no whitespace |
| Text.LStripDropsLeadingSpace | steps/services/pet_store.py:46 | left-stripping keeps a suffix that does not start with whitespace, and everything it drops is whitespace |
| Text.RStripDropsTrailingSpace | steps/services/pet_store.py:46 | right-stripping keeps a prefix that does not end with whitespace, and everything it drops is whitespace |
| Text.StripEnds | steps/services/pet_store.py:46 | a stripped string neither starts nor ends with whitespace |
| Text.NatToStringInjective | steps/services/pet_store.py:42 | `str(seq)` is one-to-one, so distinct counter values give distinct pet ids |
| Text.ParseIntOfNatToString | steps/python/update_pet_step.py:71-73 | `int(str(n)) == n` for every natural number |
| PetTypes.ParseSpecies | steps/services/types.py:4 | a string accepted as a species is exactly that species' name |
| PetTypes.ParseSpeciesName | steps/services/types.py:4 | every species name parses back to its species (the four names are distinct) |
| PetTypes.ParseStatus | steps/services/types.py:5 | a string accepted as a status is exactly that status' name |
| PetTypes.ParseStatusName | steps/services/types.py:5 | every status name parses back to its status (the ten names are distinct) |
| PetTypes.PyInt | steps/python/create_pet_step.py:40-43 | `int(v)` keeps integers, truncates floats, and raises (None) for null, lists and dictionaries |
| PetStore.NewPet | steps/services/pet_store.py:44-52 | a created pet has status new, a stripped name no longer than the input, age clamped at 0, both timestamps now, and no optional fields or flags |
| PetStore.WithStatus | steps/services/pet_store.py:63-67 | `update_status` changes the status and updatedAt and nothing else |
| PetStore.Patched | steps/services/pet_store.py:86-92 | the patch overlays species, notes and nextFeedingAt; the name is taken (stripped) only when it is a string; the age (`max(0, int(...))`) only when numeric; updatedAt is now; status, id, timestamps, profile and flags are kept |
| PetStore.EmptyPatchTouchesOnly | steps/services/pet_store.py:86-92 | an empty patch only refreshes updatedAt |
| PetStore.SoftDeleted | steps/services/pet_store.py:111-118 | soft deletion sets status deleted, deletedAt now, purgeAt now plus 2,592,000,000 ms, and changes nothing else |
| PetStore.WithProfile | steps/services/pet_store.py:129-133 | `update_profile` replaces the profile and updatedAt and nothing else |
| PetStore.WithFlagAdded | steps/python/pet_lifecycle_orchestrator_step.py:257-258 | the add-flag action sets the flag, keeps every other flag, and changes nothing else but updatedAt |
| PetStore.WithFlagRemoved | steps/python/pet_lifecycle_orchestrator_step.py:261-262 | the remove-flag action clears the flag, keeps every other flag, and changes nothing else but updatedAt |
| PetStore.SoftDeletedReadyAfterThirtyDays | steps/services/pet_store.py:111-143 | a soft-deleted pet is ready to purge exactly when at least thirty days have passed since deletion |
| PetStore.ReadyIds | steps/services/pet_store.py:138-144 | the ids ready to purge are ids of stored pets |
| PetStore.InsertPos | steps/services/pet_store.py:72-74 | the insertion point puts a pet after every pet updated no earlier, and before the first pet updated earlier |
| PetStore.Inserted | steps/services/pet_store.py:72-74 | inserting adds exactly the one pet to the listing |
| PetStore.InsertKeepsSorted | steps/services/pet_store.py:72-74 | inserting at its place keeps a listing sorted by updatedAt descending |
| PetStore.InsertKeepsDistinct | steps/services/pet_store.py:72-74 | inserting a pet with a new id keeps the listed ids distinct |
| PetStore.PetStore.constructor | steps/services/pet_store.py:20-26 | the initial store has counter 1 and no pets, and satisfies the store invariant (every pet under its own id, no id at or past the counter in use) |
| PetStore.PetStore.Create | steps/services/pet_store.py:40-55 | the id is the old counter in decimal and was not in use; the counter moves on by one; exactly the new pet is added |
| PetStore.PetStore.Get | steps/services/pet_store.py:76-78 | the stored pet for a known id, None otherwise |
| PetStore.PetStore.UpdateStatus | steps/services/pet_store.py:57-70 | an unknown id returns None and changes nothing; otherwise only that pet is replaced by `WithStatus` |
| PetStore.PetStore.Update | steps/services/pet_store.py:80-95 | an unknown id returns None and changes nothing; otherwise only that pet is replaced by `Patched` |
| PetStore.PetStore.UpdateProfile | steps/services/pet_store.py:123-136 | an unknown id returns None and changes nothing; otherwise only that pet is replaced by `WithProfile` |
| PetStore.PetStore.SoftDelete | steps/services/pet_store.py:105-121 | an unknown id returns None and changes nothing; otherwise only that pet is replaced by `SoftDeleted` |
| PetStore.PetStore.Remove | steps/services/pet_store.py:97-103 | returns true exactly when the id was stored, and removes exactly that entry |
| PetStore.PetStore.FindDeletedPetsReadyToPurge | steps/services/pet_store.py:138-144 | lists exactly the stored pets that are deleted with purgeAt (default 0) at or before now, each once |
| PetStore.PetStore.ListAll | steps/services/pet_store.py:72-74 | lists every stored pet exactly once, most recently updated first |
| PetStore.PetStore.AddFlag | steps/python/pet_lifecycle_orchestrator_step.py:257-258 | an unknown id changes nothing; otherwise only that pet gains the flag |
| PetStore.PetStore.RemoveFlag | steps/python/pet_lifecycle_orchestrator_step.py:261-262 | an unknown id changes nothing; otherwise only that pet loses the flag |
| PetStore.ListingCoversTable | steps/services/pet_store.py:72-74 | as many distinct stored ids as stored pets means every pet is listed |
| PetStore.IdsCount | steps/services/pet_store.py:72-74 | a listing with distinct ids names as many ids as it has entries |
| DeletionReaper.Reap | steps/python/deletion_reaper.cron_step.py:29-93 | every pet ready to purge at scan time is removed and no other pet is touched; the purged count equals the number scanned, so the failed count is 0; an empty scan reports 0 and changes nothing |
| CreatePetStep.StatusCode | steps/python/create_pet_step.py:36-77 | replies are 201, 400 or 500, and 400 exactly for the three validation failures |
| CreatePetStep.Validate | steps/python/create_pet_step.py:29-43 | a body is accepted exactly when the name is a non-blank string, the species is one of the four, and `int()` accepts the age; the accepted request carries those values; a refusal is the first failing check in the order name, species, age: a bad name is refused for its name whatever else the body holds, the species only once the name passes, the age only once both pass |
| CreatePetStep.CreatePetAsWritten | steps/python/create_pet_step.py:29-46 | as written, a failed check answers 400 and every valid request raises at the store call, before anything is stored |
| CreatePetStep.CreatePet | steps/python/create_pet_step.py:29-77 | a refused body leaves the store untouched; a valid one stores exactly one new pet, built from the request, under a fresh id |
| CreatePetStep.CreatedPetMatchesRequest | steps/python/create_pet_step.py:36-46 | the created pet is new, unflagged, of the requested species, named by the stripped non-empty name, with the age clamped at 0 |
| CreatePetStep.MissingAgeRejected | steps/python/create_pet_step.py:40-43 | a body without ageMonths but with a valid name and species is refused for its age |
| CreatePetStep.ValidRequestsExist | steps/python/create_pet_step.py:36-46 | every body with a non-blank name, a listed species and an integer age is accepted with exactly those values |
| UpdatePetStep.ValidStatusesAreStatusNames | steps/python/update_pet_step.py:33-36 | a string is in the handler's valid-status list exactly when it names a status |
| UpdatePetStep.StatusCode | steps/python/update_pet_step.py:29-82 | replies are 200, 202, 400 or 404 |
| UpdatePetStep.PatchOf | steps/python/update_pet_step.py:66-79 | each patch key is present exactly when the body's value has the accepted type (string name and notes, listed species, age `int()` accepts, numeric next feeding time), with the converted value |
| UpdatePetStep.UpdatePet | steps/python/update_pet_step.py:23-82 | an unknown pet gets 404 and no write; a different status gets 400 if invalid or 202 if valid, with no write either way; otherwise the pet is patched with `PatchOf` and returned with 200 |
| UpdatePetStep.PatchKeepsLifecycleFields | steps/python/update_pet_step.py:66-81 | the patch path never changes the status, id, flags, profile, creation or deletion fields |
| UpdatePetStep.DigitAgeIsStored | steps/python/update_pet_step.py:71-75 | an age sent as decimal digits is stored as that number |
| UpdatePetStep.RealAgeIsTruncated | steps/python/update_pet_step.py:71-75 | an age sent as a float is stored truncated and clamped at 0 |
| UpdatePetStep.SameStatusIsPlainUpdate | steps/python/update_pet_step.py:32 | sending the current status back takes the patch path |
| UpdatePetStep.StatusRequestReachesOrchestrator | steps/python/update_pet_step.py:46-55 | a 202 request names a status different from the current one, and the orchestrator reads it as a status-update query with that target |
| PetLifecycle.ParseTopic | steps/python/pet_lifecycle_orchestrator_step.py:118-125 | an event string accepted as a topic is exactly that topic's name |
| PetLifecycle.ParseTopicName | steps/python/pet_lifecycle_orchestrator_step.py:118-125 | every subscribed topic name parses back to its topic |
| PetLifecycle.TableShape | steps/python/pet_lifecycle_orchestrator_step.py:23-112 | no rule starts from adopted or deleted; only adoption.ready has guards; only adoption.needs_data has a flag action |
| PetLifecycle.GuardFailure | steps/python/pet_lifecycle_orchestrator_step.py:12-20 | must_be_healthy passes exactly for a healthy pet, no_needs_data_flag exactly without the flag, and an unknown guard always fails |
| PetLifecycle.FirstFailingGuard | steps/python/pet_lifecycle_orchestrator_step.py:10-21 | the index reported is that of the first failing guard: all earlier guards pass |
| PetLifecycle.CheckGuards | steps/python/pet_lifecycle_orchestrator_step.py:10-21 | the loop passes exactly when every guard passes, and otherwise reports the first failure |
| PetLifecycle.FirstFailingGuardIs | steps/python/pet_lifecycle_orchestrator_step.py:10-21 | the first failing guard is determined by its two defining properties |
| PetLifecycle.TopicOf | steps/python/pet_lifecycle_orchestrator_step.py:150 | a recognised event is exactly the name of its topic |
| PetLifecycle.TargetOf | steps/python/pet_lifecycle_orchestrator_step.py:151 | a recognised requested status is exactly the name of that status |
| PetLifecycle.FirstMatchFrom | steps/python/pet_lifecycle_orchestrator_step.py:166-179 | the table search returns the first matching rule at or after the start, and no rule before it matches |
| PetLifecycle.FirstMatchFromIs | steps/python/pet_lifecycle_orchestrator_step.py:166-179 | the first match is determined by its two defining properties |
| PetLifecycle.SelectRule | steps/python/pet_lifecycle_orchestrator_step.py:166-179 | the chosen rule is a table rule that matches (event, current status and, for a status request, target); none is chosen exactly when no rule matches |
| PetLifecycle.SelectsRule | steps/python/pet_lifecycle_orchestrator_step.py:166-179 | a matching rule with no matching rule before it is the one chosen |
| PetLifecycle.FindRule | steps/python/pet_lifecycle_orchestrator_step.py:166-179 | the handler's two search loops choose `SelectRule` |
| PetLifecycle.RequestGetsRequestedStatus | steps/python/pet_lifecycle_orchestrator_step.py:167-173 | a status request is only granted as asked: the chosen rule is a status-update rule leading to the requested status |
| PetLifecycle.TerminalHasNoRule | steps/python/pet_lifecycle_orchestrator_step.py:23-112 | no event moves a pet out of adopted or deleted |
| PetLifecycle.Decide | steps/python/pet_lifecycle_orchestrator_step.py:181-243 | the handler rejects exactly when no rule matches; an applied rule is the chosen one, all its guards pass, and it either changes the status or carries a flag action |
| PetLifecycle.Applied | steps/python/pet_lifecycle_orchestrator_step.py:246-264 | applying a rule sets its target status and updatedAt, adds or removes the rule's flag, and changes nothing else |
| PetLifecycle.NextActionTopic | steps/python/pet_lifecycle_orchestrator_step.py:299-354 | a follow-up topic is chosen exactly for the four (old, new) pairs, and each pair gets its own topic: ill→under_treatment "py.treatment.required", healthy→available "py.adoption.ready", under_treatment→recovered "py.treatment.completed", recovered→healthy "py.health.restored" |
| PetLifecycle.AutoProgression | steps/python/pet_lifecycle_orchestrator_step.py:360-368 | exactly healthy, ill and recovered progress automatically, each to a different status |
| PetLifecycle.AutoProgressionIsTableMove | steps/python/pet_lifecycle_orchestrator_step.py:379-398 | when a progression fires, the status request it sends is applied by a table rule to its target, without guards or flag action |
| PetLifecycle.HandleResult | steps/python/pet_lifecycle_orchestrator_step.py:149-293 | an unknown pet changes nothing; only a completed transition changes the table, and never its set of ids |
| PetLifecycle.HandleResultAsWritten | steps/python/pet_lifecycle_orchestrator_step.py:245-358 | as written, no pet's flags ever change, because the flag operations do not exist, and no transition sends a follow-up topic, because `emit_next_action_events` raises on the unbound name `time` |
| PetLifecycle.Evaluate | steps/python/pet_lifecycle_orchestrator_step.py:166-243 | the handler's search, guard and idempotency checks compute `Decide` |
| PetLifecycle.ApplyFlagAction | steps/python/pet_lifecycle_orchestrator_step.py:254-264 | the store adds or removes the rule's flag on that pet only |
| PetLifecycle.Transition | steps/python/pet_lifecycle_orchestrator_step.py:245-264 | writing the status and then the flag action leaves that pet as `Applied` and the others untouched |
| PetLifecycle.Handle | steps/python/pet_lifecycle_orchestrator_step.py:134-297 | the handler's outcome and the store's new table are those of `HandleResult` |
| PetLifecycle.AdoptionReadyBlocked | steps/python/pet_lifecycle_orchestrator_step.py:209-233 | adoption.ready on a healthy pet flagged needs_data is blocked by its guard |
| PetLifecycle.AdoptionReadyNeedsHealthy | steps/python/pet_lifecycle_orchestrator_step.py:105-111 | adoption.ready has no rule for a pet that is not healthy |
| PetLifecycle.NeedsDataBlocksAdoptionReady | steps/python/pet_lifecycle_orchestrator_step.py:209-233 | adoption.ready never changes a pet flagged needs_data |
| PetLifecycle.NeedsDataDecision | steps/python/pet_lifecycle_orchestrator_step.py:98-104 | adoption.needs_data on a healthy pet applies the healthy→healthy rule that adds the flag |
| PetLifecycle.AdoptionReadyApplies | steps/python/pet_lifecycle_orchestrator_step.py:105-111 | adoption.ready on an unflagged healthy pet applies the rule to available |
| PetLifecycle.NeedsDataFlagsHealthyPet | steps/python/pet_lifecycle_orchestrator_step.py:246-258 | adoption.needs_data keeps a healthy pet healthy and adds the needs_data flag |
| PetLifecycle.NoTreatmentNeededIsIdempotent | steps/python/pet_lifecycle_orchestrator_step.py:235-243 | health.no_treatment_needed on a healthy pet reports "already in status" and changes nothing |
| PetLifecycle.TransitionsFollowTable | steps/python/pet_lifecycle_orchestrator_step.py:166-247 | every status change is a move of the table for the given event, and for a status request it reaches the requested status |
| PetLifecycle.TerminalPetsUnchanged | steps/python/pet_lifecycle_orchestrator_step.py:181-207 | an adopted or deleted pet is rejected and never changed |
| PetLifecycle.AsWrittenAgreesOnStatus | steps/python/pet_lifecycle_orchestrator_step.py:245-264 | the handler as written and the corrected one write the same statuses; their outcomes differ only where the written one crashes on a flag action, or in the follow-up topic the written one never sends |
| PetLifecycle.AsWrittenAdoptionReadyIgnoresNeedsData | steps/python/pet_lifecycle_orchestrator_step.py:255-260 | as written, adoption.needs_data crashes without setting the flag, so a following adoption.ready makes the pet available |
| PetLifecycle.AdoptionReadyAfterNeedsDataIsRejected | steps/python/pet_lifecycle_orchestrator_step.py:98-111 | with the flag action carried out, the same two events leave the pet healthy and reject adoption.ready |
| PetLifecycle.AsWrittenSendsNoFollowUp | steps/python/pet_lifecycle_orchestrator_step.py:299-310 | as written, an ill pet moved to under_treatment is transitioned but no follow-up topic goes out |
| PetLifecycle.TreatmentStartSendsTreatmentRequired | steps/python/pet_lifecycle_orchestrator_step.py:290-310 | with the follow-up sent, moving an ill pet to under_treatment sends "py.treatment.required" |
| PetLifecycle.StatusRequestBypassesNeedsData | steps/python/pet_lifecycle_orchestrator_step.py:42-47 | a status request to available, including the automatic progression, has no guard, so it makes a flagged healthy pet available |
| TreatmentScheduler.DetermineTreatmentType | steps/python/treatment_scheduler_step.py:19-33 | each treatment is chosen exactly when its keyword occurs and no keyword earlier in the order bleeding, breathing, pain, infection, fever does; otherwise a general examination |
| TreatmentScheduler.MedicationsFor | steps/python/treatment_scheduler_step.py:35-48 | every medication listed belongs to a table entry whose keyword occurs, and there are no more than table entries |
| TreatmentScheduler.DetermineMedication | steps/python/treatment_scheduler_step.py:35-48 | one medication per keyword found, in table order, at most four, without repetition, each with its own instruction |
| TreatmentScheduler.MedicationTableSpelled | steps/python/treatment_scheduler_step.py:35-48 | the table lookup lists pain, infection, fever and anxiety medications in that order, each exactly when its keyword occurs |
| TreatmentScheduler.MedicationsDistinct | steps/python/treatment_scheduler_step.py:35-48 | no medication is listed twice |
| TreatmentScheduler.InstructionFor | steps/python/treatment_scheduler_step.py:50-63 | the default instruction is given exactly when the medication names none of the four medication kinds |
| TreatmentScheduler.TableMedicationsHaveInstructions | steps/python/treatment_scheduler_step.py:39-61 | no medication the scheduler produces falls back to the default instruction |
| TreatmentScheduler.GenerateMedicationInstructions | steps/python/treatment_scheduler_step.py:50-63 | one instruction per medication, each determined by its own medication alone |
| TreatmentScheduler.IsUrgent | steps/python/treatment_scheduler_step.py:83-84 | a case is urgent exactly when some lower-cased symptom contains one of the four urgent phrases |
| TreatmentScheduler.BleedingIsSurgery | steps/python/treatment_scheduler_step.py:82-92 | a bleeding symptom makes the case urgent and schedules emergency surgery |
| TreatmentScheduler.BreathingDifficultyIsRespiratory | steps/python/treatment_scheduler_step.py:82-92 | breathing difficulty without bleeding makes the case urgent and schedules respiratory treatment |
| TreatmentScheduler.ScheduleTreatment | steps/python/treatment_scheduler_step.py:65-96 | an unknown pet gets no schedule; an urgent case is scheduled in two hours with two staff for 2-4 hours, a normal one in 24 hours with one veterinarian for 1-2 hours; the treatment and medication are those of the tables |
| RecoveryMonitor.ExpectedRecoveryTime | steps/python/recovery_monitor_step.py:19-32 | the recovery time is one of the five listed, and 2-4 weeks whenever emergency surgery is named (in any case) |
| RecoveryMonitor.SurgeryRecoveryTime | steps/python/recovery_monitor_step.py:21-22 | emergency surgery takes 2-4 weeks |
| RecoveryMonitor.RespiratoryRecoveryTime | steps/python/recovery_monitor_step.py:23-24 | respiratory treatment takes 1-2 weeks |
| RecoveryMonitor.PainRecoveryTime | steps/python/recovery_monitor_step.py:25-26 | pain management takes 3-7 days |
| RecoveryMonitor.AntibioticRecoveryTime | steps/python/recovery_monitor_step.py:27-28 | antibiotic treatment takes 7-14 days |
| RecoveryMonitor.FeverRecoveryTime | steps/python/recovery_monitor_step.py:29-30 | fever management takes 3-5 days |
| RecoveryMonitor.ExaminationRecoveryTime | steps/python/recovery_monitor_step.py:31-32 | a general examination falls back to 1-2 weeks |
| RecoveryMonitor.RecoveryTimeOfScheduledTreatment | steps/python/recovery_monitor_step.py:19-32 | every treatment the scheduler can choose is recognised by the monitor and gets its own recovery time |
| RecoveryMonitor.MonitoringSchedule | steps/python/recovery_monitor_step.py:34-55 | the four base checks, then the surgery checks and the respiratory checks when named, so 4, 6 or 8 entries, all of high or medium priority |
| RecoveryMonitor.RecoveryMilestones | steps/python/recovery_monitor_step.py:57-72 | the four base milestones, plus two for surgery; all pending within days 1-14; sorted by day exactly when there is no surgery |
| RecoveryMonitor.RecoveryIndicators | steps/python/recovery_monitor_step.py:74-89 | the four base indicators, plus three for surgery and three for respiratory, so 4, 7 or 10, none repeated |
| RecoveryMonitor.FollowUpChecks | steps/python/recovery_monitor_step.py:150-154 | three follow-ups at completion plus two hours, one day and one week, in increasing order |
| RecoveryMonitor.TreatmentKind | steps/python/recovery_monitor_step.py:96 | an absent treatment type is "general", a string is taken as it is, and any other value (null included) gives no string to lower-case |
| RecoveryMonitor.Monitor | steps/python/recovery_monitor_step.py:91-183 | an unknown pet is reported; "started" builds a plan with the expected time, the base checks followed by the surgery and respiratory checks when named, and the base milestones followed by the surgery ones; "completed" schedules the three follow-ups with the base indicators followed by the surgery and respiratory ones, not ready for discharge; a non-string treatment type makes either build fail, caught with nothing emitted; any other status does nothing |
| AdoptionPosting.AdoptionFee | steps/python/adoption_posting_step.py:19-24 | the fee is 150, 200, 250 or 300; at least 200 exactly for a pet under twelve months or a breed guess mentioning Purebred; at most 200 without a profile |
| AdoptionPosting.YoungerNeverCheaper | steps/python/adoption_posting_step.py:21 | a pet under twelve months costs exactly 50 more than the same pet older |
| AdoptionPosting.FeeDependsOnAgeAndBreed | steps/python/adoption_posting_step.py:19-24 | the fee depends only on the age band and the breed guess |
| AdoptionPosting.TemperamentTags | steps/python/adoption_posting_step.py:36-37 | a pet without a profile has no temperament tags |
| AdoptionPosting.AdoptionRequirements | steps/python/adoption_posting_step.py:26-47 | the five fixed items in order, then high_energy, needs_experience and special_needs items when present, so 5 to 8 items, none repeated |
| AdoptionPosting.PostForAdoption | steps/python/adoption_posting_step.py:49-114 | an unknown pet gets no posting; a stored pet's posting carries its fee, its breed or "Mixed Breed", a title from its name and breed or species, the fixed requirements first, and an interview one week later |
| PteScorer.LexicalDiversity | services/scoring_api/app/core/pte_scorer.py:283-289 | the type-token ratio lies in [0,1], and is positive for any text with a token |
| PteScorer.ScoreFluency | services/scoring_api/app/core/pte_scorer.py:133-162 | fluency lies in [0,100], and is 20 below five tokens |
| PteScorer.LexicalFromCountsBounds | services/scoring_api/app/core/pte_scorer.py:176-192 | the lexical formula lies in [20,100], because the balance term is at least 20 |
| PteScorer.ScoreLexicalResource | services/scoring_api/app/core/pte_scorer.py:164-192 | lexical resource lies in [20,100], and is 20 below five word tokens |
| PteScorer.GrammarIssues | services/scoring_api/app/core/pte_scorer.py:215-223 | a sentence has at most two issues |
| PteScorer.TotalIssuesBound | services/scoring_api/app/core/pte_scorer.py:204-210 | a text has at most two issues per sentence |
| PteScorer.GrammarFromCountsBounds | services/scoring_api/app/core/pte_scorer.py:212-213 | the grammar formula lies in [0,100], is 100 without issues and 0 with at least one issue per sentence |
| PteScorer.GrammarScoreBounds | services/scoring_api/app/core/pte_scorer.py:194-213 | grammar lies in [0,100] |
| PteScorer.ScoreGrammar | services/scoring_api/app/core/pte_scorer.py:194-213 | the accumulating loop computes the grammar score, which lies in [0,100] |
| PteScorer.SumIssues | services/scoring_api/app/core/pte_scorer.py:204-210 | the loop adds up exactly the issues of every sentence |
| PteScorer.WordComplexity | services/scoring_api/app/core/pte_scorer.py:236-243 | one word earns at most four complexity points |
| PteScorer.TotalComplexityBound | services/scoring_api/app/core/pte_scorer.py:235-243 | a text earns at most four points per token |
| PteScorer.PronunciationFromCountsBounds | services/scoring_api/app/core/pte_scorer.py:245-246 | with at most four points per token the score lies in [60,100] and the cap at 100 never binds |
| PteScorer.PronunciationScoreBounds | services/scoring_api/app/core/pte_scorer.py:225-246 | pronunciation is 50 without tokens and lies in [60,100] otherwise |
| PteScorer.ScorePronunciation | services/scoring_api/app/core/pte_scorer.py:225-246 | the accumulating loop computes the pronunciation score, which lies in [0,100] |
| PteScorer.SumOccurrencesIsCountIn | services/scoring_api/app/core/pte_scorer.py:275-281 | summing per-filler counts over distinct fillers counts the tokens in the filler lexicon |
| PteScorer.CountFillers | services/scoring_api/app/core/pte_scorer.py:275-281 | the loop counts exactly the tokens that are fillers, at most one per token |
| PteScorer.MultiWordFillersNeverMatch | services/scoring_api/app/core/pte_scorer.py:277-280 | "you know", "sort of" and "kind of" never equal a whitespace token, so only the one-word fillers count |
| PteScorer.OralFluencyBounds | services/scoring_api/app/core/pte_scorer.py:257-273 | from ten tokens on, oral fluency lies in [12,80] |
| PteScorer.OralFluencyFillerMonotone | services/scoring_api/app/core/pte_scorer.py:257-273 | with the token count fixed, more fillers never raise oral fluency |
| PteScorer.ScoreOralFluency | services/scoring_api/app/core/pte_scorer.py:248-273 | oral fluency is 40 below ten tokens and lies in [12,80] otherwise |
| PteScorer.CompositeBounds | services/scoring_api/app/core/pte_scorer.py:100-106 | the weights sum to one, so the composite lies between the smallest and the largest dimension score |
| PteScorer.CalibrateToBand | services/scoring_api/app/core/pte_scorer.py:291-297 | the band is a multiple of ten in [10,90] |
| PteScorer.CalibrateToBandMonotone | services/scoring_api/app/core/pte_scorer.py:291-297 | a higher composite never gives a lower band |
| PteScorer.CalibrateToBandTruncates | services/scoring_api/app/core/pte_scorer.py:291-297 | on [0,100] the band is the multiple of ten at or below 10 + 0.8 × composite: it truncates, never rounds up |
| PteScorer.CalibrationEndpoints | services/scoring_api/app/core/pte_scorer.py:291-297 | composites 0, 50, 100 and 33.5 give bands 10, 50, 90 and 30 |
| PteScorer.BandToSectionScore | services/scoring_api/app/core/pte_scorer.py:299-302 | the section score lies in [0,90] |
| PteScorer.BandToSectionScoreMonotone | services/scoring_api/app/core/pte_scorer.py:299-302 | a higher band never gives a lower section score |
| PteScorer.SectionScoreEndpoints | services/scoring_api/app/core/pte_scorer.py:299-302 | bands 10 and 90 map to 0 and 90, bands outside are clamped, and band 20 maps to 11.25, which is not integral |
| PteScorer.DimensionsInPercent | services/scoring_api/app/core/pte_scorer.py:93-97 | all five dimension scores lie in [0,100] |
| PteScorer.ScoreOfBounds | services/scoring_api/app/core/pte_scorer.py:93-110 | the dimension scores and the composite lie in [0,100] |
| PteScorer.Score | services/scoring_api/app/core/pte_scorer.py:75-131 | the result depends on the text alone (metadata never matters); scores and composite lie in [0,100], the band is a multiple of ten in [10,90], and the section score lies in [0,90] |
| PteScorer.EmptyTextScore | services/scoring_api/app/core/pte_scorer.py:100-110 | the empty text scores 20, 20, 50, 40 and 50, giving composite 33.5, band 30 and section score 22.5 |
| PteNlpScorer.LetterRuns | services/scoring_api/app/core/pte_nlp_scorer.py:18-22 | the kept runs are non-empty and made of the letters a-z |
| PteNlpScorer.Tokenize | services/scoring_api/app/core/pte_nlp_scorer.py:18-22 | every token is non-empty, made of a-z only, and occurs in the lower-cased text |
| PteNlpScorer.RunsOccur | services/scoring_api/app/core/pte_nlp_scorer.py:21 | every run cut from a string occurs in it |
| PteNlpScorer.NoTokenHasSpace | services/scoring_api/app/core/pte_nlp_scorer.py:72-73 | no token equals a phrase with a space in it |
| PteNlpScorer.VowelGroups | services/scoring_api/app/core/pte_nlp_scorer.py:28-35 | a word has no more vowel groups than letters |
| PteNlpScorer.Syllables | services/scoring_api/app/core/pte_nlp_scorer.py:25-40 | every word, the empty one included, has at least one syllable |
| PteNlpScorer.CountSyllables | services/scoring_api/app/core/pte_nlp_scorer.py:25-40 | the character loop computes the syllable estimate, which is at least 1 |
| PteNlpScorer.SyllablesAtMostLength | services/scoring_api/app/core/pte_nlp_scorer.py:36-40 | a non-empty word has no more syllables than letters |
| PteNlpScorer.TotalSyllables | services/scoring_api/app/core/pte_nlp_scorer.py:99-100 | the syllables of a list of words are at least as many as the words |
| PteNlpScorer.Bounded | services/scoring_api/app/core/pte_nlp_scorer.py:77 | every clamped sub-score lies in [10,90] |
| PteNlpScorer.BoundedMonotone | services/scoring_api/app/core/pte_nlp_scorer.py:77 | clamping a truncated score is monotone |
| PteNlpScorer.FluencyRaw | services/scoring_api/app/core/pte_nlp_scorer.py:59-76 | the raw fluency lies in [45,85]: the length, word-length and sentence bonuses are capped and the filler penalty is at most 5 |
| PteNlpScorer.SentenceEstimate | services/scoring_api/app/core/pte_nlp_scorer.py:56-57 | the sentence count is at least 1 |
| PteNlpScorer.ScoreFluency | services/scoring_api/app/core/pte_nlp_scorer.py:43-77 | fluency lies in [10,90]; it is 10 for a short text and lies in [45,85] otherwise |
| PteNlpScorer.YouKnowNeverMatches | services/scoring_api/app/core/pte_nlp_scorer.py:72-73 | the filler "you know" never matches a token |
| PteNlpScorer.PronunciationRaw | services/scoring_api/app/core/pte_nlp_scorer.py:96-105 | the text part of the pronunciation formula lies in [62,85] |
| PteNlpScorer.ScorePronunciation | services/scoring_api/app/core/pte_nlp_scorer.py:80-112 | pronunciation lies in [10,90], and is 10 for a short text or one without tokens |
| PteNlpScorer.PronunciationOfText | services/scoring_api/app/core/pte_nlp_scorer.py:91-105 | for a text with tokens the text part lies in [62,85] |
| PteNlpScorer.PronunciationMonotone | services/scoring_api/app/core/pte_nlp_scorer.py:108-112 | pronunciation never falls when clarity_rating rises or accent_penalty falls |
| PteNlpScorer.ClarityTenFloor | services/scoring_api/app/core/pte_nlp_scorer.py:108-112 | with clarity 10 and no accent penalty, a long-enough text with a token scores at least 72 |
| PteNlpScorer.LexicalRaw | services/scoring_api/app/core/pte_nlp_scorer.py:130-147 | the raw lexical-range score lies in [50,100] |
| PteNlpScorer.CountLong | services/scoring_api/app/core/pte_nlp_scorer.py:144 | the long words are no more than the words |
| PteNlpScorer.ScoreLexicalRange | services/scoring_api/app/core/pte_nlp_scorer.py:115-148 | lexical range lies in [10,90]; 10 for a short text or one without tokens, at least 50 otherwise |
| PteNlpScorer.GrammarRaw | services/scoring_api/app/core/pte_nlp_scorer.py:168-184 | the raw grammar score is at most 85 |
| PteNlpScorer.ScoreGrammar | services/scoring_api/app/core/pte_nlp_scorer.py:151-185 | grammar lies in [10,85]; 10 for a short text or one without sentences |
| PteNlpScorer.Overall | services/scoring_api/app/core/pte_nlp_scorer.py:207 | the truncated equal-weight mean lies between the smallest and the largest sub-score |
| PteNlpScorer.Combine | services/scoring_api/app/core/pte_nlp_scorer.py:206-215 | the result has exactly the five keys, the four sub-scores unchanged, and an overall between their minimum and maximum, all in [10,90] |
| PteNlpScorer.ComputePteScores | services/scoring_api/app/core/pte_nlp_scorer.py:188-215 | exactly the keys fluency, pronunciation, lexical_range, grammar and overall, every value in [10,90], the overall between the smallest and largest sub-score |
| PteNlpScorer.ShortTextScoresTen | services/scoring_api/app/core/pte_nlp_scorer.py:188-215 | an absent, empty or short text scores 10 on every key, whatever the metadata |
| PteNlpScorer.EmptyTextScoresTen | services/scoring_api/app/core/pte_nlp_scorer.py:188-215 | the empty and the absent text have overall 10 |
| PlaceholderScorer.TextLength | services/scoring_api/app/core/scorer.py:12 | an absent text has length 0 |
| PlaceholderScorer.PronunciationHint | services/scoring_api/app/core/scorer.py:14 | the hint is the metadata's pronunciation_hint when present, and 0 without metadata or without the key |
| PlaceholderScorer.FluencyOf | services/scoring_api/app/core/scorer.py:13 | fluency lies in [70,100] and is 70 for an absent text |
| PlaceholderScorer.PronunciationOf | services/scoring_api/app/core/scorer.py:14 | pronunciation is at most 100, and 70 without a hint |
| PlaceholderScorer.CommunicativeOf | services/scoring_api/app/core/scorer.py:15 | the halved sum lies between the two scores |
| PlaceholderScorer.ComputeScores | services/scoring_api/app/core/scorer.py:5-24 | exactly the three score keys; fluency in [70,100], pronunciation at most 100, communicative between them; raw is the constant debug record |
| PlaceholderScorer.FluencyPeriodic | services/scoring_api/app/core/scorer.py:13 | fluency is 70 plus the text length modulo 31, so texts 31 characters apart score the same |
| PlaceholderScorer.DefaultsScoreBase | services/scoring_api/app/core/scorer.py:11-15 | no text and no metadata give 70 on every score |
| PlaceholderScorer.HintMonotone | services/scoring_api/app/core/scorer.py:14-15 | a larger hint never lowers pronunciation or the communicative score |
| WorkflowOrchestrator.StatusValue | services/scoring_api/app/core/workflow_orchestrator.py:20-24 | each status value is one of the four strings |
| WorkflowOrchestrator.StatusValueInjective | services/scoring_api/app/core/workflow_orchestrator.py:20-24 | distinct statuses have distinct values |
| WorkflowOrchestrator.InitialWorkflow | services/scoring_api/app/core/workflow_orchestrator.py:38-47 | a new workflow has exactly the eight fields, status pending, empty scores and errors, the given submission and ids, and equal timestamps |
| WorkflowOrchestrator.WithStatus | services/scoring_api/app/core/workflow_orchestrator.py:67-70 | the updated record has the old fields, status, updated_at and the data keys |
| WorkflowOrchestrator.WithStatusFields | services/scoring_api/app/core/workflow_orchestrator.py:67-70 | keys in data win, even status; otherwise the status is the new one; every other field apart from updated_at is unchanged |
| WorkflowOrchestrator.BlendBetween | services/scoring_api/app/core/workflow_orchestrator.py:110 | for non-negative scores the blend lies between the two inputs |
| WorkflowOrchestrator.BlendSymmetric | services/scoring_api/app/core/workflow_orchestrator.py:110 | the blend does not depend on the order of its inputs |
| WorkflowOrchestrator.BlendSame | services/scoring_api/app/core/workflow_orchestrator.py:110 | blending a score with itself gives that score |
| WorkflowOrchestrator.ScoringWorkflow.constructor | services/scoring_api/app/core/workflow_orchestrator.py:30-33 | a new orchestrator holds no workflows |
| WorkflowOrchestrator.ScoringWorkflow.CreateWorkflow | services/scoring_api/app/core/workflow_orchestrator.py:35-50 | the new record is stored under the fresh id, which is returned; nothing else changes |
| WorkflowOrchestrator.ScoringWorkflow.GetWorkflow | services/scoring_api/app/core/workflow_orchestrator.py:52-58 | the stored record for a known id, None otherwise |
| WorkflowOrchestrator.ScoringWorkflow.UpdateWorkflowStatus | services/scoring_api/app/core/workflow_orchestrator.py:60-75 | an unknown id changes nothing; otherwise only that record is replaced by `WithStatus` |
| WorkflowOrchestrator.ScoringWorkflow.AggregateScores | services/scoring_api/app/core/workflow_orchestrator.py:96-114 | without AI scores the NLP scores come back unchanged; otherwise the keys are exactly the NLP keys, shared keys are blended, and AI-only keys are dropped |
| WorkflowOrchestrator.AggregateBetween | services/scoring_api/app/core/workflow_orchestrator.py:108-110 | a blended non-negative score lies between its NLP and AI scores |
| WorkflowOrchestrator.AggregateNlpOnly | services/scoring_api/app/core/workflow_orchestrator.py:111-112 | a key without an AI score keeps its NLP value |
| JobOrchestrator.Successors | services/scoring_api/app/core/orchestrator.py:118-125 | completed and failed have no successors, and every other state has at most two |
| JobOrchestrator.AllowedMovesForward | services/scoring_api/app/core/orchestrator.py:118-125 | every allowed transition moves strictly forward along the pipeline and never back to pending |
| JobOrchestrator.PathRankGrows | services/scoring_api/app/core/orchestrator.py:118-127 | along a chain of allowed transitions the position grows by at least one per step |
| JobOrchestrator.PathsAreShort | services/scoring_api/app/core/orchestrator.py:118-127 | a chain of `transition_job` moves with no `update_job_state` call in between (which writes any state unchecked) has at most four steps |
| JobOrchestrator.NewJob | services/scoring_api/app/core/orchestrator.py:39-53 | a new job is pending, with no steps, results or errors, the given ids and text, and empty metadata when none is given |
| JobOrchestrator.WithState | services/scoring_api/app/core/orchestrator.py:85-91 | the state and updated_at are set; steps only grow by at most one at the end; results gain at most the step's key; nothing else changes |
| JobOrchestrator.WithStateSteps | services/scoring_api/app/core/orchestrator.py:88-91 | the step is appended exactly when it is given, and its result stored exactly when both are given |
| JobOrchestrator.WithEnrichment | services/scoring_api/app/core/orchestrator.py:140-143 | the enrichment entry is created if absent; new keys win over old ones, other old keys are kept; nothing outside results changes |
| JobOrchestrator.WithError | services/scoring_api/app/core/orchestrator.py:161-164 | exactly one error entry with the message is appended and nothing else changes |
| JobOrchestrator.WorkflowOrchestrator.constructor | services/scoring_api/app/core/orchestrator.py:27-30 | a new orchestrator holds no jobs |
| JobOrchestrator.WorkflowOrchestrator.CreateScoringJob | services/scoring_api/app/core/orchestrator.py:32-64 | the new job is stored under the fresh id and returned |
| JobOrchestrator.WorkflowOrchestrator.GetJobStatus | services/scoring_api/app/core/orchestrator.py:66-71 | the stored job for a known id, None otherwise |
| JobOrchestrator.WorkflowOrchestrator.UpdateJobState | services/scoring_api/app/core/orchestrator.py:73-107 | an unknown id is an error and changes nothing; otherwise only that job is replaced by `WithState` |
| JobOrchestrator.WorkflowOrchestrator.TransitionJob | services/scoring_api/app/core/orchestrator.py:109-132 | an unknown id or a move outside the table is an error and changes nothing; an allowed move updates the state without a step |
| JobOrchestrator.WorkflowOrchestrator.EnrichJobResults | services/scoring_api/app/core/orchestrator.py:134-153 | an unknown id is an error and changes nothing; otherwise only that job is replaced by `WithEnrichment` |
| JobOrchestrator.WorkflowOrchestrator.RecordError | services/scoring_api/app/core/orchestrator.py:155-173 | an unknown id is an error and changes nothing; otherwise only that job is replaced by `WithError` |

## Left out

- File persistence, logging, the event bus (`emit`, pub/sub, `subscribe_to_events`, `_publish_event`, `_publish_update`), Redis time-to-live values and the audit-log `print` are left out. The model keeps only decisions and stored state.
- The clock, fresh uuids and the incoming request or event are parameters rather than calls.
- The lifecycle handler's emitted events are modelled only by the outcome: the follow-up topic and the automatic progression that would be scheduled. The corrected handler (`HandleResult`) reports the follow-up topic `emit_next_action_events` chooses. As written, that topic is never sent (see "## Findings"), while the automatic progression is.
- The `asyncio.sleep(1.5)` delay and the background task of the automatic progression are left out. `ProgressionFires` states the condition under which the delayed request is sent.
- The rule descriptions and the text of log messages are left out.
- The `if not updated_pet` checks after `update_status` (steps/python/pet_lifecycle_orchestrator_step.py:249-252) and after `update` (steps/python/update_pet_step.py:82) are not modelled. The pet was read just before, so they cannot fire in a sequential run.
- Concurrent runs are not modelled: two requests, or a reaper run, interleaving between a read and a write.
- `CreatePetStep.CreatePet` returns the created pet. The stream record (`streams.petCreation.set`) and the trace id it carries are left out.
- Request bodies are dictionaries. A non-dictionary body, which makes `.get` raise, is not modelled.
- The lifecycle handler's `requestedStatus` is a string or absent; other JSON types are not modelled.
- Profiles always carry all four fields, as the `PetProfile` record declares. A stored profile missing `breedGuess` or `temperamentTags` is not modelled.
- `AdoptionPosting.PostForAdoption`: the posting's description, temperament, adopterHints, specialNeeds, location and contact fields are not modelled. Nor is the fixed interview requirement list.
- `PetStore.Patch`: only the five keys the update handler can send are modelled. A caller passing other keys to `update` is not.
- `PetStore.PetStore.ListAll` fixes the descending updatedAt order only. The order among pets with equal updatedAt (Python's stable sort keeps insertion order) is not stated.
- `pet_store` has no `add_flag` or `remove_flag`. `PetStore.PetStore.AddFlag` and `RemoveFlag` are the set updates the lifecycle handler evidently expects, and they are used only by the corrected handler.
- Floating-point rounding is not modelled: every formula is computed exactly over `real`. NaN and infinity are not modelled.
- `PteScorer.Score`: the composite is the exact weighted sum. `round(composite, 2)` in the result dictionary is not applied.
- Regular expressions are ASCII character-class functions:
  - `\w` is `[A-Za-z0-9_]`;
  - `\s` and `str.isspace` are the ASCII whitespace characters;
  - `\b` is the edge of a maximal run.
  
  Non-ASCII letters and Unicode case mapping are not modelled, so `.lower()` maps only A-Z.
- The unused loop over `GRAMMAR_PATTERNS` (services/scoring_api/app/core/pte_scorer.py:206-208) does nothing and is left out.
- `int()` on a string accepts surrounding ASCII whitespace, an optional sign and decimal digits. Underscore separators and non-ASCII digits are not modelled.
- `RecoveryMonitor.ExpectedRecoveryTime`: its contract states the range of results and the emergency-surgery case. The other cases are proved for the names the scheduler produces (`SurgeryRecoveryTime` … `ExaminationRecoveryTime`, `RecoveryTimeOfScheduledTreatment`), not for every string containing them.
- Pronunciation metadata hints in `compute_pte_scores` are reals. Non-numeric hint values, which make the source raise, are not modelled.
- PlaceholderScorer.PronunciationHint: hints are integers. A float hint, which gives a float pronunciation score that `//` then floors, and a non-numeric hint, which makes `compute_scores` raise a TypeError, are not modelled.

## Findings

| source | as written | input that shows it | evidently intended | confidence | as-written member | corrected member |
|---|---|---|---|---|---|---|
| steps/python/pet_lifecycle_orchestrator_step.py:258 | The handler calls `pet_store.add_flag`, which `pet_store` does not define. The AttributeError is raised after the status write and caught, so the needs_data flag is never set. | A healthy pet with no flags receives adoption.needs_data and then adoption.ready: it becomes available. | adoption.needs_data adds the flag, and the guard on adoption.ready then rejects the second event. The automatic healthy→available progression that adoption.needs_data also schedules is an unguarded status request, so it still makes the flagged pet available (`PetLifecycle.NeedsDataFlagsHealthyPet`, `PetLifecycle.StatusRequestBypassesNeedsData`); the flag only blocks adoption.ready itself. | not executed | PetLifecycle.AsWrittenAdoptionReadyIgnoresNeedsData | PetLifecycle.AdoptionReadyAfterNeedsDataIsRejected |
| steps/python/pet_lifecycle_orchestrator_step.py:310 | `emit_next_action_events` builds each payload with `time.time()`, but `time` is imported only inside `handler` (line 141), a local name. The NameError is raised before `emit` is awaited and swallowed at lines 356-358, so no follow-up event is ever sent. | An ill pet receives status.update.requested with requestedStatus "under_treatment": it moves to under_treatment, but "py.treatment.required" is not emitted. | Each of the four status changes sends its follow-up topic (`NextActionTopic`). | not executed | PetLifecycle.AsWrittenSendsNoFollowUp | PetLifecycle.TreatmentStartSendsTreatmentRequired |
| steps/python/create_pet_step.py:46 | The handler passes `weight_kg` and `symptoms` keywords to `pet_store.create`, whose signature takes only name, species and ageMonths. The TypeError escapes the handler. | Any valid body, e.g. name "Rex", species "dog", ageMonths 3: it fails instead of answering 201. | A valid request creates the pet under a fresh id and answers 201. | not executed | CreatePetStep.CreatePetAsWritten | CreatePetStep.CreatePet |
