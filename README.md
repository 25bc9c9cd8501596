# CharacterGen in Dafny

CharacterGen writes character cards for chat front-ends. A card has six text fields: name, description, scenario, first message, message example and personality. Each field is generated from a base prompt, a template that can refer to fields generated earlier (`{{description}}`) and to the user's input (`{{input}}`, `{{if_input}}...{{/if_input}}`). The fields are generated in a fixed order, and a field that changes makes the later fields that depend on it stale.

This project models the core of that program:

- **Templates.** Placeholder substitution, conditional sections and the checks on tag nesting and counts. These exist in the single-file generator (`character_gen.py`), in the `core` prompt processor and in the `src` prompt service and models. `Templates` gives a reference reading of a template as prose, placeholders and sections. The character-level scanners are proved against it.
- **Order and dependencies.** Fields available before a field, the generation-order check of prompt sets, and the regeneration chain of the dependency manager.
- **Generation.** The `src` generation service and generation manager, with its first-in-first-out queue of deferred requests. Also the single-file generator's regeneration of dependents. The text-completion API is a function parameter.
- **Queues and progress.** The generation queue manager, the generation tracking service and batch progress.
- **Records and bookkeeping.**
  - Character records and their card dictionaries.
  - Version history and generation metadata.
  - The character handler's cache and modified set.
  - Both character state managers, with their undo and redo stacks and the recent-files list.
  - The generic state manager.
  - The validation service, context preservation, both UI state managers and the error handler.

Each core file is one module, and modules are named after their package: `Core...` for `core/`, `Src...` for `src/`, and `CharacterGen` for the single-file generator. Python objects whose fields the program updates in place are classes. Their methods are proved against functions on values, and lemmas about those functions carry the properties. Dictionaries whose iteration order matters are sequences of pairs (`Dicts`). Uuids are counters or parameters. Clock readings, file contents and API replies are parameters. A Python exception is the `Failure` of a `Result`.

## Model

| member | source | states |
|---|---|---|
| CharacterGen.AvailableAt | character_gen.py:76-80 | an available field is listed before the first occurrence of the field being generated |
| CharacterGen.AvailableFieldsMeaning | character_gen.py:76-80 | a field is available exactly when it is listed strictly before the first occurrence of the field being generated; a field not in the order has none |
| CharacterGen.AvailabilityIsStrict | character_gen.py:76-80 | no field is available to itself, and no two fields are available to each other |
| CharacterGen.AvailabilityIsTransitive | character_gen.py:76-80 | what is available to a field stays available to every field after it |
| CharacterGen.NewBasePrompt | character_gen.py:84-92 | a base prompt keeps its text, and is refused with the mismatched-tags error exactly when the `{{if_input}}` and `{{/if_input}}` counts differ |
| CharacterGen.WellFormedTemplateAccepted | character_gen.py:88-92 | every template built from prose, placeholders and closed `{{if_input}}` sections is accepted |
| CharacterGen.UnclosedSectionRejected | character_gen.py:88-92 | a template with one more section opened than closed is refused |
| CharacterGen.TagFieldsMeaning | character_gen.py:95-103 | a field is required exactly when one of the tags is its value and that tag is not `input`, `if_input`, `/if_input`, `char` or `user` |
| CharacterGen.GetRequiredFields | character_gen.py:94-103 | the loop over the tags found yields the required-field set of the text |
| CharacterGen.RequiredFieldsOfTemplate | character_gen.py:94-103 | a rendered template requires exactly the fields whose placeholders it holds |
| CharacterGen.OutputPairsAt | character_gen.py:127-129 | the k-th replacement puts the k-th output in place of its own field's placeholder |
| CharacterGen.Process | character_gen.py:105-131 | the loop computes `ProcessSpec`: sections kept or dropped as the input is blank, the input substituted, then each output in turn, then stripped |
| CharacterGen.ProcessRendered | character_gen.py:105-131 | on a template of prose, placeholders and input sections, processing keeps the sections' bodies exactly when the input is not blank, replaces `{{input}}` and each field's placeholder by its value, and keeps every other placeholder |
| CharacterGen.ProcessAsReplaceEach | character_gen.py:105-131 | processing is the section substitution followed by one replacement per pair, in order, then stripping |
| CharacterGen.FieldValueIsWord | character_gen.py:95-129 | every field value is a `\w+` word, so `{{value}}` is a placeholder the required-field scan sees |
| CharacterGen.OutputsAmong | character_gen.py:177-182 | only outputs of fields that are available and have an output are passed on, each with its own text |
| CharacterGen.LookupOutputsAmong | character_gen.py:177-182 | a field's placeholder is replaced by the field's own output exactly when it is available and has one |
| CharacterGen.RegeneratedMeaning | character_gen.py:195-324 | a dependent is regenerated exactly when it is listed after the changed field and its base prompt requires the changed field |
| CharacterGen.PromptManager.constructor | character_gen.py:134-138 | a new manager has no base prompts, inputs or outputs, and an empty order |
| CharacterGen.PromptManager.SetFieldOrder | character_gen.py:140-141 | the order is replaced and nothing else changes |
| CharacterGen.PromptManager.SetBasePrompt | character_gen.py:143-145 | a well-formed prompt is stored under the field; a mismatched one raises and changes nothing |
| CharacterGen.PromptManager.SetInput | character_gen.py:147-148 | the input is stored under the field and nothing else changes |
| CharacterGen.PromptManager.SetOutput | character_gen.py:150-151 | the output is stored under the field and nothing else changes |
| CharacterGen.PromptManager.ProcessedPromptNeedsDependencies | character_gen.py:153-184 | a prompt is produced exactly when the field has a base prompt and every field it requires comes before it; no base prompt is its own error |
| CharacterGen.PromptManager.AvailableOutputsLookup | character_gen.py:175-184 | the output substituted for a placeholder is that field's own output, and only fields before the one generated are substituted |
| CharacterGen.PromptManager.ProcessedPromptOfTemplate | character_gen.py:166-184 | on a base prompt rendered from a template, the processed prompt keeps sections as the field's input says, puts the input and the earlier fields' outputs in place, and keeps all other placeholders |
| CharacterGen.RunDependentsRecords | character_gen.py:320-335 | the loop records an outcome for exactly the later fields that require the changed field, and leaves every other result and output alone |
| CharacterGen.RunDependentsAgrees | character_gen.py:327-333 | every text the loop records as generated is the output it leaves for that field |
| CharacterGen.RootKept | character_gen.py:313-324 | once the field itself is generated, its text stays both its result and its output, because no field is regenerated for depending on itself |
| CharacterGen.GenerateWithDependentsRecords | character_gen.py:298-342 | the field's own outcome is always recorded; its failure is the only record and changes no output; on success the records are the field and exactly the later fields that require it |
| CharacterGen.GenerateWithDependentsAgrees | character_gen.py:298-342 | every recorded text is the output left for that field, and fields without a record keep their outputs |
| CharacterGen.GenerationService.constructor | character_gen.py:285-287 | the service holds the given prompt manager |
| CharacterGen.GenerationService.GenerateField | character_gen.py:289-296 | the result is the prompt sent to the text service, or the first error; a success is stored as the field's output, and nothing else changes |
| CharacterGen.GenerationService.Regenerate | character_gen.py:327-335 | one dependent's outcome is recorded over the others, and only its success changes the outputs |
| CharacterGen.GenerationService.RegenerateDependents | character_gen.py:323-335 | the loop computes `RunDependents`: records for exactly the dependents that require the field, each generated text stored as that field's output |
| CharacterGen.GenerationService.GenerateFieldWithDependents | character_gen.py:298-342 | the results and the new outputs are `GenerateWithDependents`: the field's own failure alone, or its text and each requiring dependent's outcome |
| CoreBatch.PercentageBounds | core/models/batch.py:26-31 | the progress percentage is 0 for an empty batch, 100 once every request has finished, and between 0 and 100 otherwise |
| CoreBatch.Count | core/models/batch.py:50-58 | the total is the number of request ids, and each count is the number of requests in the status map with that status |
| CoreBatch.CountsBounded | core/models/batch.py:51-58 | every request in the status map is counted once, except cancelled ones, which are not counted |
| CoreBatch.StatusPartition | core/models/batch.py:51-58 | the five statuses split the status map's requests into disjoint classes |
| CoreBatch.ClassifyFinished | core/models/batch.py:60-70 | a batch whose requests have all finished is failed, completed or partly completed, depending on how many failed; an unfinished batch keeps its previous status only when nothing is running or waiting |
| CoreBatch.ClassifyNeverCancels | core/models/batch.py:60-62 | an empty batch is pending, and an update never makes a batch cancelled |
| CoreBatch.BatchOperation.constructor | core/models/batch.py:33-46 | a new batch is pending, with zero progress and the given name, description, request ids and parent |
| CoreBatch.BatchOperation.UpdateProgress | core/models/batch.py:48-70 | the progress becomes the counts of the status map and the status their classification; nothing else changes |
| CoreCharacter.Apply | core/models/character.py:21-25 | an entry whose key is no attribute becomes a custom setting and changes nothing else; an attribute entry fails only when its value does not fit the attribute |
| CoreCharacter.MetaFrom | core/models/character.py:40-55 | null or empty metadata reads as the defaults, and each missing entry as its default |
| CoreCharacter.MetaRoundTrip | core/models/character.py:27-55 | metadata read back from its dictionary form is unchanged, except that an unset `last_modified` comes back as the time it was written |
| CoreCharacter.ApplyShows | core/models/character.py:19-38 | an attribute written by `update` shows in `to_dict` as written, with the exception of a null or empty `last_modified`; any other key shows among the custom settings |
| CoreCharacter.UpdateOnlyCustom | core/models/character.py:19-25 | an `update` whose keys name no attribute only adds custom settings, and a later entry for the same key wins |
| CoreCharacter.CharacterGenMetadata.constructor | core/models/character.py:7-17 | the metadata holds the given attribute values |
| CoreCharacter.CharacterGenMetadata.SetAttribute | core/models/character.py:22-25 | one entry of `update` is applied exactly as `Apply` says, and a rejected entry changes nothing |
| CoreCharacter.CharacterGenMetadata.Update | core/models/character.py:19-25 | the entries are applied in order; the state and the error are those of `UpdateSpec` |
| CoreCharacter.CharacterGenMetadata.FromDict | core/models/character.py:40-55 | fresh metadata holding what `MetaFrom` reads, or `MetaFrom`'s error |
| CoreCharacter.TextsFrom | core/models/character.py:140-148 | each text field is the dictionary's text under its key, or empty when the key is missing; a value that is not a text is an error |
| CoreCharacter.TextsFromStored | core/models/character.py:140-148 | texts stored under their keys read back unchanged |
| CoreCharacter.TemplateFromEmpty | core/models/character.py:140-152 | an empty dictionary gives empty texts and empty lists |
| CoreCharacter.TemplateRoundTrip | core/models/character.py:104-152 | the template fields read back from their dictionary form are unchanged, whatever other entries sit beside them |
| CoreCharacter.ExtensionsFrom | core/models/character.py:158 | missing, null or empty extensions count as none; an extensions object is taken as it is |
| CoreCharacter.CardFrom | core/models/character.py:133-169 | reads the `data` object, or the whole dictionary when it has none; the result never keeps a `charactergen` extension |
| CoreCharacter.LoadedFrom | core/models/character.py:139-169 | the template fields, the extensions other than `charactergen`, and the metadata of the card's own dictionary |
| CoreCharacter.CardRoundTrip | core/models/character.py:104-169 | a card read back from `to_dict` has the same template fields, the same extensions other than `charactergen`, and the same metadata, except for the modification time `to_dict` fills in |
| CoreCharacter.CardDictData | core/models/character.py:127-137 | `from_dict` reads the `data` object that `to_dict` writes |
| CoreCharacter.LoadedFromParts | core/models/character.py:155-169 | a card's dictionary reads as its template fields, its extensions without `charactergen`, and the metadata stored there |
| CoreCharacter.EmptyCardDefaults | core/models/character.py:61-152 | an empty dictionary reads with an empty avatar and an empty creator, where a new character has "none" and "Anonymous" |
| CoreCharacter.CharacterData.constructor | core/models/character.py:57-86 | a character holding these values, with metadata of its own |
| CoreCharacter.CharacterData.CreateEmpty | core/models/character.py:171-176 | a new character with the template defaults, the default metadata, the new id and the clock reading as both times |
| CoreCharacter.CharacterData.Copy | core/models/character.py:88-102 | a new record with the same values, id included, and metadata of its own holding the same state |
| CoreCharacter.CharacterData.FromDict | core/models/character.py:133-169 | succeeds exactly when `CardFrom` does; the new character holds what the card says, with a new id and the clock reading as its times |
| CoreCharacterHandler.KeepSafe | core/services/character_handler.py:197 | only letters, digits, spaces, `-` and `_` are kept, in order; a text made only of those is kept whole |
| CoreCharacterHandler.SafeNameChars | core/services/character_handler.py:194-199 | a default file name holds only letters, digits, `-` and `_`: no path separator and no space |
| CoreCharacterHandler.SafeNameIdempotent | core/services/character_handler.py:197-198 | deriving a file name from a default file name gives it back unchanged |
| CoreCharacterHandler.Verdicts | core/services/character_handler.py:124-132 | one verdict per public attribute, in attribute order, each the verdict of that attribute's validators |
| CoreCharacterHandler.DefaultValidation | core/services/character_handler.py:116-134 | with the default validators a character is valid exactly when its name and description are acceptable; no other attribute has validators under its own name |
| CoreCharacterHandler.OtherAttributePasses | core/services/character_handler.py:124-132 | an attribute other than the name and the description passes the default validators |
| CoreCharacterHandler.SaveStampUpdate | core/services/character_handler.py:88-93 | the save stamp sets the four metadata attributes, changes nothing else and never fails |
| CoreCharacterHandler.CardOfWritten | core/services/character_handler.py:45-49 | the card read from a written document is its `data` object |
| CoreCharacterHandler.SavedDocumentReads | core/services/character_handler.py:41-99 | a document that `save_character` wrote reads back with the same template fields, the same extensions other than `charactergen`, and the stamped metadata |
| CoreCharacterHandler.SavedDocumentLoads | core/services/character_handler.py:31-59 | with validation on, a saved document loads exactly when the character read from it is valid |
| CoreCharacterHandler.ExportWithoutMetadataReads | core/services/character_handler.py:209-216 | a document exported without metadata reads back with the same template fields and extensions, and the default metadata |
| CoreCharacterHandler.CardWithoutMetadata | core/services/character_handler.py:211-216 | a card whose extensions hold no metadata reads back with the default metadata |
| CoreCharacterHandler.CreatedCharacterSaveAsWritten | core/services/character_handler.py:173-177 | a character made by `create_character` as written can never be saved, because its metadata is a plain dictionary; with a metadata object the saved document loads back with the new name |
| CoreCharacterHandler.CharacterDataHandler.constructor | core/services/character_handler.py:16-26 | a new handler has an empty cache and no modified characters |
| CoreCharacterHandler.CharacterDataHandler.ValidateCharacter | core/services/character_handler.py:116-134 | the loop's verdict is `Validates`: a non-empty name, then every public attribute passing its validators |
| CoreCharacterHandler.CharacterDataHandler.ReadCharacter | core/services/character_handler.py:38-49 | a character is read exactly when the file holds a `chara_card_v2` card; it holds what the card says, with the new id and the clock reading |
| CoreCharacterHandler.CharacterDataHandler.ReadAndValidate | core/services/character_handler.py:38-55 | as `ReadCharacter`, and an invalid character is refused when validation is on |
| CoreCharacterHandler.CharacterDataHandler.LoadCharacter | core/services/character_handler.py:31-68 | a character loads exactly when `LoadResult` gives one, holding what the card says; it is cached under its new id, and nothing is cached otherwise |
| CoreCharacterHandler.CharacterDataHandler.SaveCharacter | core/services/character_handler.py:70-114 | saves exactly when the character is valid and the directory and the write succeed; the path is the given one or the default one; the metadata is stamped once validation and the directory pass; the written document is the card of the stamped character; a save caches the character and clears its modified mark |
| CoreCharacterHandler.CharacterDataHandler.ExportCharacter | core/services/character_handler.py:201-234 | exports exactly when the directory and the write succeed; the document is the card, without `charactergen` when metadata is left out; the cache is untouched |
| CoreCharacterHandler.CharacterDataHandler.MarkModified | core/services/character_handler.py:145-151 | the character is marked modified at the clock reading, and the cache is untouched |
| CoreCharacterHandler.CharacterDataHandler.ClearCache | core/services/character_handler.py:157-160 | no cached character and no modified mark is left |
| CoreCharacterHandler.CharacterDataHandler.CreateCharacter | core/services/character_handler.py:162-183 | a new character with this name, the new id and the clock reading, cached and marked modified, with a metadata object holding the defaults |
| CoreCharacterState.Copy | core/models/character.py:88-102 | a copy holds the dataclass fields with their values and nothing else |
| CoreCharacterState.CopyOfDataclass | core/models/character.py:88-102 | a character holding only dataclass fields is copied unchanged |
| CoreCharacterState.CopyDropsExtra | core/models/character.py:88-102 | an attribute that is no dataclass field does not survive into an undo snapshot |
| CoreCharacterState.PushedUndo | core/state/character.py:217-223 | a copy of the current character is on top, the stack holds at most 50 entries, and the entries dropped are the oldest |
| CoreCharacterState.UpdateSpec | core/state/character.py:70-119 | succeeds exactly when a character is loaded and validation is off or passes; with a character a snapshot is always pushed; a success writes the value and the modification time, marks the field modified and empties the redo stack; a rejection changes nothing else |
| CoreCharacterState.UndoSpec | core/state/character.py:159-182 | fails exactly when there is nothing to undo; otherwise the top snapshot becomes current and the old current goes onto the redo stack |
| CoreCharacterState.RedoSpec | core/state/character.py:184-207 | fails exactly when there is nothing to redo; otherwise the top redo entry becomes current and the old current goes onto the undo stack, without the 50-entry trim |
| CoreCharacterState.UndoThenRedo | core/state/character.py:159-207 | redoing what was just undone gives back the state before the undo |
| CoreCharacterState.RedoThenUndo | core/state/character.py:159-207 | undoing what was just redone gives back the state before the redo |
| CoreCharacterState.RedoPassesCap | core/state/character.py:81-223 | the 50-entry cap holds only for pushes: after a rejected update at 49 snapshots, a redo leaves 51 |
| CoreCharacterState.RejectedUpdateStillSnapshots | core/state/character.py:80-94 | an update the validator rejects still leaves a snapshot of the character on the undo stack and changes nothing else |
| CoreCharacterState.UndoAfterUpdate | core/state/character.py:70-182 | an accepted update leaves unsaved changes and nothing to redo, and undoing it brings back a copy of the character before it |
| CoreCharacterState.CharacterStateManager.constructor | core/state/character.py:17-36 | a new manager holds no character, no modified fields, no save time and empty stacks |
| CoreCharacterState.CharacterStateManager.ClearCurrentState | core/state/character.py:209-215 | no character, no modified fields, no save time and empty stacks |
| CoreCharacterState.CharacterStateManager.PushUndoState | core/state/character.py:217-223 | the trim loop gives `PushedUndo`; with no character nothing changes |
| CoreCharacterState.CharacterStateManager.HasUnsaved | core/state/character.py:147-149 | true exactly when a field is marked modified |
| CoreCharacterState.CharacterStateManager.CanUndo | core/state/character.py:151-153 | true exactly when the undo stack is not empty |
| CoreCharacterState.CharacterStateManager.CanRedo | core/state/character.py:155-157 | true exactly when the redo stack is not empty |
| CoreCharacterState.CharacterStateManager.UpdateField | core/state/character.py:70-119 | the new state and the result are `UpdateSpec` with the validation service's verdict; with no character a `StateError` "No character loaded" is handled |
| CoreCharacterState.CharacterStateManager.UpdateLoaded | core/state/character.py:80-109 | with a character loaded, the new state and the result are `UpdateSpec` with the validation service's verdict: the undo snapshot is pushed even when validation rejects the value |
| CoreCharacterState.CharacterStateManager.Undo | core/state/character.py:159-182 | the new state and the result are `UndoSpec` |
| CoreCharacterState.CharacterStateManager.Redo | core/state/character.py:184-207 | the new state and the result are `RedoSpec` |
| CoreCharacterState.CharacterStateManager.LoadCharacter | core/state/character.py:42-68 | the state is cleared; a loaded character becomes current with the clock reading as its save time; a failure is handled as a state error and raised again as "Failed to load character: " plus its message |
| CoreCharacterState.CharacterStateManager.SaveCharacter | core/state/character.py:121-145 | succeeds exactly when a character is loaded and the file service does not fail; a save clears the modified fields and records the time; a failure is handled and changes nothing else |
| CoreCharacterState.Latest | core/state/character.py:234 | the auto-save `max` picks is listed, none is newer, and it is the first of the newest |
| CoreCharacterState.LatestAt | core/state/character.py:234 | the position `max` stops at: no file is newer than the one there, and every earlier file is strictly older |
| CoreCharacterState.InitializeAsWritten | core/state/character.py:225-250 | as written the state never changes: with no character loaded, a failed listing raises its error, no auto-save raises nothing, and any auto-save raises the `AttributeError` of `p.stat().mtime` |
| CoreCharacterState.AutoSaveNeverRecoveredAsWritten | core/state/character.py:225-240 | an auto-save that reading `st_mtime` would recover and mark modified is lost to the `AttributeError` as written |
| CoreCharacterState.RecoversNewest | core/state/character.py:231-244 | with the key reading `st_mtime`, the state changes exactly when recovering the newest auto-save gives a character, which becomes current, and then the `ui_manager` error is raised |
| CoreCharacterState.CharacterStateManager.Initialize | core/state/character.py:225-250 | with the key reading `st_mtime`: the new state and the exception are `InitializeSpec`; an exception is handled as a warning of its own class, and nothing is handled without one |
| CoreContextPreservation.Stored | core/services/context_preservation.py:30-49 | the context is appended to its field's history and made current, kept in memory and written to disk; every other field's history is unchanged |
| CoreContextPreservation.Loaded | core/services/context_preservation.py:176-222 | a missing file gives nothing and changes nothing; otherwise the file's context is cached under its own id and appended to its field's history unless already listed, and the field's current context is unchanged |
| CoreContextPreservation.StoreMakesCurrent | core/services/context_preservation.py:30-78 | storing keeps the store valid, and asking for the field's current context then gives the stored one |
| CoreContextPreservation.StoreAppendsToHistory | core/services/context_preservation.py:39-135 | storing a context with a new id adds it at the end of its field's history and leaves every other history as it was |
| CoreContextPreservation.FetchPrefersMemory | core/services/context_preservation.py:65-68 | asking by id for a context in memory gives it and changes nothing |
| CoreContextPreservation.LoadKeepsValid | core/services/context_preservation.py:210-220 | reading a context from disk keeps the store valid, and never lists a context twice in its history |
| CoreContextPreservation.CurrentIsLatestStored | core/services/context_preservation.py:73-78 | without an id the answer is the field's current context, and there is none exactly when the field has no history or no current id |
| CoreContextPreservation.UpdateMergesInPlace | core/services/context_preservation.py:95-102 | without `create_new`, the current context gets the updates merged into its base context and its user modifications, the updates winning, and keeps its id, its parent and its field, and the store stays valid |
| CoreContextPreservation.UpdateKeepsValid | core/services/context_preservation.py:89-119 | a merge and a new child context alike keep every listed and current context in memory under its own id |
| CoreContextPreservation.FetchKeepsValid | core/services/context_preservation.py:60-87 | asking for a context, by id or as the field's current one, keeps the store valid |
| CoreContextPreservation.UpdateCreatesChild | core/services/context_preservation.py:103-110 | otherwise a new context whose base context is exactly the updates is stored and made current, its parent being the field's previous current context |
| CoreContextPreservation.ContextPreservationService.constructor | core/services/context_preservation.py:15-28 | a new service has no histories and no contexts in memory, and its store is valid |
| CoreContextPreservation.ContextPreservationService.StoreContext | core/services/context_preservation.py:30-49 | the id returned is the context's, and the new store is `Stored`; a valid store stays valid |
| CoreContextPreservation.ContextPreservationService.LoadContext | core/services/context_preservation.py:176-222 | the new store and the answer are `Loaded`; a valid store stays valid |
| CoreContextPreservation.ContextPreservationService.GetContext | core/services/context_preservation.py:60-87 | by id, memory first, then the disk; without an id, the field's current context; a valid store stays valid |
| CoreContextPreservation.ContextPreservationService.UpdateContext | core/services/context_preservation.py:89-119 | the new store and the id returned are `Updated`: a merge into the current context, or a new child context; a valid store stays valid |
| CoreContextPreservation.ContextPreservationService.GetContextHistory | core/services/context_preservation.py:121-135 | the contexts the field's history lists, in order, and the store is unchanged |
| CorePromptModels.GetPromptForField | core/models/prompts.py:35-37 | the template of the field, and none exactly when the field has no template |
| CorePromptModels.CheckFrom | core/models/prompts.py:46-51 | the loop from a position on passes exactly when each later field's required fields all come before it |
| CorePromptModels.ValidateGenerationOrder | core/models/prompts.py:39-53 | valid exactly when the templates' fields are the fields of the order and each field's required fields all come strictly earlier |
| CorePromptModels.SelfRequirementInvalid | core/models/prompts.py:46-51 | a field that requires itself makes the set invalid |
| CorePromptModels.OptionalFieldsIgnored | core/models/prompts.py:39-53 | the optional fields of the templates play no part in validity |
| CorePromptModels.SwappingDependentsInvalidates | core/models/prompts.py:46-51 | swapping two adjacent fields of a valid order breaks it when the later one requires the earlier |
| CorePromptService.ValidateConditionalTags | core/services/prompt.py:131-155 | the stack scan over the markers, in order, gives `CheckNesting` of the markers found, starting from an empty stack |
| CorePromptService.NestedMarkersPass | core/services/prompt.py:141-152 | the markers of well-nested blocks pass the scan and leave the stack as it was |
| CorePromptService.NestedBlocksAccepted | core/services/prompt.py:131-155 | well-nested blocks are accepted |
| CorePromptService.StrayCloseRejected | core/services/prompt.py:145-147 | a closing marker with nothing open is refused as an unexpected closing tag |
| CorePromptService.CrossedCloseRejected | core/services/prompt.py:148-149 | a block opened for one name and closed for another is refused as mismatched |
| CorePromptService.OpenLeftRejected | core/services/prompt.py:154-155 | a block left open at the end is refused as unclosed |
| CorePromptService.BlockAt | core/services/prompt.py:15 | a block match at the start of the text has a positive length within the text |
| CorePromptService.SubFields | core/services/prompt.py:76-88 | only fields present in the data are used; only required fields are reported missing as required; no field is both used and missing |
| CorePromptService.ReplaceSystemTags | core/services/prompt.py:53-57 | one replacement pass per entry of the system values, and none when there are none |
| CorePromptService.ProcessPrompt | core/services/prompt.py:37-109 | fails exactly when the conditional markers do not nest, with "Failed to process prompt: " and the scan's message; otherwise the result is the system pass, then the block substitution, then the field substitution, using only data fields and reporting only required fields as missing required |
| CorePromptService.AnalyzeDependencies | core/services/prompt.py:111-129 | the required fields are the template's; the optional ones are every other referenced name, from field tags and from condition names other than `input` |
| CorePromptService.MarkerIsCondTag | core/services/prompt.py:141-143 | a marker is read by the marker pattern as itself, opening or closing |
| CorePromptService.SubBlocksOfTemplate | core/services/prompt.py:60-73 | on a template of prose, placeholders and sections, `{{if_input}}` bodies are kept with the input filled in when there is input, a section whose name is in the data is kept, every other section is dropped with its markers, and the conditions reported used are those met |
| CorePromptService.SubFieldsOfPieces | core/services/prompt.py:76-88 | on prose and placeholders, each placeholder becomes the field's value or `[field]`; the used, missing-required and missing-optional sets are exactly the placeholders in each class |
| CorePromptService.PromptManager.constructor | core/services/prompt.py:9-11 | a new manager holds no prompt sets |
| CorePromptService.PromptManager.AddPromptSet | core/services/prompt.py:19-35 | the set is stored under its id exactly when its generation order is valid, and the result says which |
| Dependency.GetFieldDependencies | core/services/dependency.py:20-38 | a field's dependencies are its template's required and optional fields, and none when it has no template |
| Dependency.GetDependentFields | core/services/dependency.py:40-54 | the loop yields every other field of the order whose dependencies include the field, wherever it stands |
| Dependency.ChainSpec | core/services/dependency.py:56-98 | fails exactly when the root is not in the order (`index` raises); otherwise the chain keeps the root and the changed fields given |
| Dependency.CreateRegenerationChain | core/services/dependency.py:56-98 | the loop builds `ChainSpec` |
| Dependency.VisitChainField | core/services/dependency.py:75-82 | one pass of the loop extends the chain over one more following field exactly as `ChainOf` does, and keeps the set of chain fields equal to the fields of the chain |
| Dependency.ChainShape | core/services/dependency.py:62-89 | the chain starts with the root and lists the fields that joined in the order they come; its reasons are keyed by exactly those fields, each a non-empty set of that field's dependencies |
| Dependency.ChainDistinct | core/services/dependency.py:62-82 | over a duplicate-free order, the chain repeats no field |
| Dependency.ChainJoinRule | core/services/dependency.py:75-82 | a later field joins exactly when its dependencies meet the chain built before it, and its reason is exactly that meeting |
| Dependency.DirectDependentJoins | core/services/dependency.py:40-82 | a direct dependent of the root that comes after it in the order is in the chain |
| Dependency.RootInChain | core/services/dependency.py:66-68 | the root is always in the chain |
| Dependency.ValidateRegenerationOrder | core/services/dependency.py:100-133 | the nested loops give `ValidRegenerationOrder`: each chain field's dependencies that are chain fields are first listed before it |
| Dependency.DependenciesBefore | core/services/dependency.py:118-122 | the inner loop passes exactly when each dependency in the chain is first found before the current position |
| Dependency.SelfDependencyInvalid | core/services/dependency.py:118-122 | a chain field that depends on itself fails the order validation |
| Dependency.ChainValidates | core/services/dependency.py:56-133 | when dependencies only point backwards in a duplicate-free order, every chain the manager builds exists and passes its own check |
| Dependency.MutualDependencyInvalid | core/services/dependency.py:56-133 | when the root and a later field depend on each other, the chain from the root fails the order validation |
| CoreErrors.Recovery | core/errors/handler.py:104-106 | the handler registered under the name, and none exactly when no handler is registered under it |
| CoreErrors.FilteredIsWhere | core/errors/handler.py:125-137 | filtering by category and then by level keeps the entries that match both |
| CoreErrors.WhereCounts | core/errors/handler.py:129-137 | the filtered history holds each matching entry as often as the history does, and no other entry |
| CoreErrors.WhereInOrder | core/errors/handler.py:129-137 | the filtered history lists its entries in the order the errors were handled |
| CoreErrors.FilteredMeaning | core/errors/handler.py:125-137 | the error history for a category and a level holds each matching error as often as the history does, no other error, in the order handled |
| CoreErrors.ErrorHandler.constructor | core/errors/handler.py:50-53 | a new handler has an empty history and no recovery handlers |
| CoreErrors.ErrorHandler.HandleError | core/errors/handler.py:55-92 | the record carries the class name, the message, the category, the level, the context, the traceback and whether a recovery handler is registered under the class name; it is appended to the history, and the registered handler, if any, is called with it |
| CoreErrors.ErrorHandler.RegisterRecoveryHandler | core/errors/handler.py:94-98 | the handler is registered under the name, replacing an earlier one, and nothing else changes |
| CoreErrors.ErrorHandler.HasRecoveryHandler | core/errors/handler.py:100-102 | true exactly when a handler is registered under the name |
| CoreErrors.ErrorHandler.GetRecoveryHandler | core/errors/handler.py:104-106 | the handler registered under the name, if any |
| CoreErrors.ErrorHandler.GetErrorHistory | core/errors/handler.py:125-137 | the history filtered by the category and the level given |
| CoreErrors.RegisteredRecovers | core/errors/handler.py:94-106 | after registering a handler for a class, that class recovers with it and other classes are unaffected |
| CoreMetadata.WithField | core/state/metadata.py:54-56 | the character then has a record for the field, an existing one left as it was |
| CoreMetadata.Generation | core/state/metadata.py:59-69 | a generation record exists exactly when the data holds the prompt, the context, the result, the base prompt name and version; it names the field, the base prompt and version and the duration given; a missing prompt is the first KeyError |
| CoreMetadata.FindPrompt | core/state/metadata.py:167-171 | the index of the first base prompt record with the name and version, or none when no record has them |
| CoreMetadata.PromptStatsKeeps | core/state/metadata.py:156-193 | updating the base prompt stats adds a record only when the name and version are not listed yet, keeps every listed pair listed, and keeps the pairs distinct |
| CoreMetadata.WithFieldKeeps | core/state/metadata.py:54-56 | adding a field record keeps every field consistent with the base prompt list and leaves that list as it was |
| CoreMetadata.RecordKeeps | core/state/metadata.py:71-82 | recording a generation keeps every field's last base prompt listed among the base prompt records |
| CoreMetadata.LastContext | core/state/metadata.py:142-154 | there is no last context exactly when the field's history is empty |
| CoreMetadata.RecordedShowsLast | core/state/metadata.py:71-146 | after a recording the field's history ends with the new generation, whose input context is then the last context; other fields' histories are unchanged and the field's base prompt is the generation's |
| CoreMetadata.EditKeeps | core/state/metadata.py:108-112 | a manual edit adds exactly one edit time to the field and leaves every generation history unchanged |
| CoreMetadata.PromptsSaved | core/state/metadata.py:216-225 | one saved entry per base prompt record, in order |
| CoreMetadata.SaveFormLists | core/state/metadata.py:201-227 | the saved form has one entry per field record, keyed by field name, and one per base prompt record |
| CoreMetadata.FieldSavedCounts | core/state/metadata.py:207-213 | a field's saved generation count and edit count are the lengths of its history and edit list; its base prompt and last-generated time are those of its last generation, or null without one |
| CoreMetadata.MetadataManager.constructor | core/state/metadata.py:16-21 | no active character and an empty cache |
| CoreMetadata.MetadataManager.InitializeCharacterMetadata | core/state/metadata.py:23-28 | a fresh record is filed under the id, replacing any, and returned |
| CoreMetadata.MetadataManager.SetActiveCharacter | core/state/metadata.py:38-42 | the character becomes active; it gets a fresh record only when it had none |
| CoreMetadata.MetadataManager.RecordGeneration | core/state/metadata.py:44-98 | without an active character the StateError; with an active id missing from the cache the lookup error; otherwise the field gets a record if it had none, and when the data holds every required key the generation is appended to its history and the base prompt stats are updated, else the KeyError |
| CoreMetadata.MetadataManager.RecordManualEdit | core/state/metadata.py:100-120 | without an active record nothing changes (the error is swallowed); otherwise the field gets a record if needed and one edit time more |
| CoreMetadata.MetadataManager.GetFieldHistory | core/state/metadata.py:122-140 | the active character's history for the field, empty when there is no active record or no field record |
| CoreMetadata.MetadataManager.GetLastGenerationContext | core/state/metadata.py:142-154 | the input context of the last generation in the field's history, none exactly when the history is empty |
| CoreMetadata.MetadataManager.GetMetadataForSave | core/state/metadata.py:195-228 | `{}` without an active character; otherwise a map whose only key is "charactergen"; always a result when the cache holds the active character |
| PromptWidgets.FirstInvalid | src/ui/widgets/base_prompt_widgets.py:233-241 | none exactly when every reference is a reserved tag or a field name; otherwise the first that is neither |
| PromptWidgets.FirstInvalidIsFirst | src/ui/widgets/base_prompt_widgets.py:233-241 | the reference reported is the first one, left to right, that is neither reserved nor a field name |
| PromptWidgets.ValidatePrompts | src/ui/widgets/base_prompt_widgets.py:214-243 | true exactly when every prompt passes validation; otherwise the error of a failing prompt |
| PromptWidgets.FirstFailureRaised | src/ui/widgets/base_prompt_widgets.py:218-241 | the error raised is the one of the first failing prompt in the dictionary's order |
| PromptWidgets.BlankPromptSkipped | src/ui/widgets/base_prompt_widgets.py:219-220 | a prompt that is blank once stripped passes whatever it holds |
| PromptWidgets.TemplateAcceptedIffKnownNames | src/ui/widgets/base_prompt_widgets.py:218-243 | a non-blank template of prose, placeholders and balanced `{{if_input}}` sections passes exactly when every placeholder is reserved or a field name |
| PromptWidgets.UnknownReferenceRejected | src/ui/widgets/base_prompt_widgets.py:233-241 | a non-blank template whose placeholder is neither reserved nor a field is refused, with the first such placeholder named in the error |
| PromptWidgets.UnclosedSectionRejected | src/ui/widgets/base_prompt_widgets.py:222-230 | a template with one `{{if_input}}` more than `{{/if_input}}` is refused, and the error reports both counts |
| PromptWidgets.ValidityIgnoresOrder | src/ui/widgets/base_prompt_widgets.py:218-243 | whether a set of prompts passes does not depend on their order |
| CoreQueue.FieldOrder | core/services/queue.py:121-125 | the position of the request's field in its prompt set's generation order (its first occurrence), or the order's length when the field is not listed |
| CoreQueue.EnqueuedWaitsOn | core/services/queue.py:88-104 | a newly queued request waits on exactly the queued and active requests whose field is among its field's dependencies |
| CoreQueue.ReleaseStep | core/services/queue.py:173-177 | one more blocked request stops waiting on the completed one; other requests are unchanged |
| CoreQueue.NextIsUnique | core/services/queue.py:131-138 | the sort key (generation order, priority descending, queue time) never ties between two queued requests, so the request started is determined |
| CoreQueue.DropKeeps | core/services/queue.py:261-297 | removing live requests and their blocking entries keeps the queue's invariants (no request in two maps, every dependency issued, every waiting request recorded in `_blocking`) |
| CoreQueue.EnqueueKeeps | core/services/queue.py:44-104 | queuing a fresh request keeps the queue's invariants |
| CoreQueue.EnqueueIssued | core/services/queue.py:44-104 | queuing a fresh request keeps every id issued and every dependency pointing to an issued request |
| CoreQueue.EnqueueWaiting | core/services/queue.py:88-104 | after queuing, every dependency of a queued request is recorded in `_blocking` |
| CoreQueue.StartKeeps | core/services/queue.py:106-145 | starting a ready request keeps the invariants and the concurrency cap |
| CoreQueue.CompleteKeeps | core/services/queue.py:147-188 | completing an active request keeps the invariants |
| CoreQueue.CompleteIssued | core/services/queue.py:147-188 | completing keeps the maps disjoint and every dependency issued |
| CoreQueue.CompleteWaiting | core/services/queue.py:173-177 | after completion no queued request still waits on the completed one without a `_blocking` entry |
| CoreQueue.RequeueKeeps | core/services/queue.py:218-221 | putting a failed request back in the queue keeps the invariants |
| CoreQueue.RequeueIssued | core/services/queue.py:218-221 | the requeued request keeps the maps disjoint and its dependencies issued |
| CoreQueue.RequeueWaiting | core/services/queue.py:218-221 | the requeued request keeps every dependency recorded in `_blocking` |
| CoreQueue.FailKeeps | core/services/queue.py:222-243 | failing a request for good, together with the live requests it blocks, keeps the invariants |
| CoreQueue.FailDisjoint | core/services/queue.py:222-243 | failing for good keeps the queued, active, completed and failed maps disjoint |
| CoreQueue.FailIssued | core/services/queue.py:222-243 | failing for good keeps every id issued and every dependency pointing to an issued request |
| CoreQueue.MinusStep | core/services/queue.py:230-243 | dropping a set and then one more id is dropping their union |
| CoreQueue.CascadeStep | core/services/queue.py:230-243 | one more blocked request that is live gets a failure result naming the failed request; one that is not live adds nothing |
| CoreQueue.CancelStep | core/services/queue.py:261-297 | cancelling one request that the cancelled one blocks, with what it blocks in turn, keeps the cancellation record |
| CoreQueue.CancelDone | core/services/queue.py:261-297 | once every request the cancelled one blocks is gone, the cancellation is complete |
| CoreQueue.CancelOneStep | core/services/queue.py:269-272 | the same step stated over the queued, active and `_blocking` maps before and after one blocked request is cancelled |
| CoreQueue.CancelledReaches | core/services/queue.py:261-288 | a finished cancellation removed exactly a reach set of the cancelled request, and `_blocking` lost exactly the entries of the removed requests |
| CoreQueue.ReachIncluded | core/services/queue.py:261-288 | every request of one reach set from a request is in every other reach set from it |
| CoreQueue.ReachUnique | core/services/queue.py:261-288 | the reach set from a request is unique, so a cancellation removes a determined set of requests: nothing outside it is removed |
| CoreQueue.ReachAlone | core/services/queue.py:261-288 | a live request that blocks nothing reaches only itself, and a request that is not live reaches nothing |
| CoreQueue.GenerationQueueManager.constructor | core/services/queue.py:25-42 | empty queued, active, completed, failed and blocking maps, and the concurrency cap given |
| CoreQueue.GenerationQueueManager.QueueGeneration | core/services/queue.py:44-87 | a fresh id, not used before, for a request on the field with the prompt set's name and version; it waits on the live requests its field depends on and `_blocking` records the inverse; nothing else changes |
| CoreQueue.GenerationQueueManager.Enqueue | core/services/queue.py:52-75 | the state change of queuing: the fresh entry with its dependencies, and the blocking entries added |
| CoreQueue.GenerationQueueManager.SetupDependencies | core/services/queue.py:88-104 | the request waits on every queued or active request whose field is among its field's dependencies, and each of those records it as blocked |
| CoreQueue.GenerationQueueManager.GetNextGeneration | core/services/queue.py:106-145 | nothing exactly when the active requests fill the cap or no queued request is ready; otherwise the ready request that sorts first moves from queued to active and is returned |
| CoreQueue.GenerationQueueManager.PickNext | core/services/queue.py:112-142 | none exactly when no queued request is ready; otherwise the ready request that sorts first |
| CoreQueue.GenerationQueueManager.CompleteGeneration | core/services/queue.py:147-188 | the ValueError exactly when the request is not active, leaving the state unchanged; otherwise a completed result with the content, the request leaves active, and the queued requests it blocked stop waiting on it |
| CoreQueue.GenerationQueueManager.Complete | core/services/queue.py:158-180 | the state change of completion |
| CoreQueue.GenerationQueueManager.ReleaseBlocked | core/services/queue.py:173-177 | each queued request among the blocked stops waiting on the completed one |
| CoreQueue.GenerationQueueManager.FailGeneration | core/services/queue.py:190-259 | the ValueError exactly when the request is neither queued nor active, leaving the state unchanged; otherwise a failed result; with retries left the request goes back to the queue with one more retry, else it fails for good and so does every live request it blocks |
| CoreQueue.GenerationQueueManager.Requeue | core/services/queue.py:218-221 | the request is back in the queue and out of active; the invariants hold |
| CoreQueue.GenerationQueueManager.Requeued | core/services/queue.py:218-221 | the state change of a retry |
| CoreQueue.GenerationQueueManager.FailForGood | core/services/queue.py:222-243 | the request and every live request it blocks leave the queue and active maps and get failure results; the invariants hold |
| CoreQueue.GenerationQueueManager.FailCore | core/services/queue.py:222-243 | the state change of a failure for good |
| CoreQueue.GenerationQueueManager.FailBlocked | core/services/queue.py:230-243 | each live request among the blocked leaves its map and gets a failure result naming the failed request |
| CoreQueue.GenerationQueueManager.FailDependent | core/services/queue.py:231-243 | one blocked request, if queued or else active, is removed and gets a failure result; otherwise nothing changes |
| CoreQueue.GenerationQueueManager.CancelGeneration | core/services/queue.py:261-297 | true exactly when the request was queued or active; the requests removed are then exactly its reach set (itself and, level by level, every live request a removed one blocks, each but itself blocked by an earlier removed one), `_blocking` loses exactly their entries, and completed and failed are unchanged; false leaves the state unchanged |
| CoreQueue.GenerationQueueManager.CancelFrom | core/services/queue.py:261-297 | the body of cancellation: true exactly when the request was live; every removed request was queued no earlier than it, every live request a removed one blocked is gone, each removed request but itself was blocked by an earlier removed one, and a `_blocking` entry goes exactly with its request |
| CoreQueue.GenerationQueueManager.CancelBlocked | core/services/queue.py:269-272 | each request the cancelled one blocked is cancelled in turn and is no longer live; the cancellation record holds for every removed request but the cancelled one |
| CoreQueue.GenerationQueueManager.CancelOneBlocked | core/services/queue.py:271-272 | one request the cancelled one blocked is cancelled with what it blocks, and the cancellation record still holds |
| CoreQueue.GenerationQueueManager.GetQueueStatus | core/services/queue.py:299-306 | the four counts add up to the number of distinct requests known |
| CoreQueue.GenerationQueueManager.GetGenerationStatus | core/services/queue.py:308-318 | none exactly when the id is in no map; otherwise the status names the one map that holds it, and never cancelled |
| CoreQueue.GenerationQueueManager.ClearCompleted | core/services/queue.py:320-325 | without an age limit the completed map is emptied and nothing else changes |
| CoreQueue.GenerationQueueManager.ClearFailed | core/services/queue.py:335-340 | without an age limit the failed map is emptied and nothing else changes |
| SrcCharacterManager.SetField | src/core/managers/character_manager.py:127-135 | a field's value sets that field alone and nothing else of the character; a name that is no field value leaves the fields as they were; keys stay distinct |
| SrcCharacterManager.RemoveFirst | src/core/managers/character_manager.py:219-220 | the list without one occurrence of the path, unchanged when the path is absent |
| SrcCharacterManager.RemoveFirstMeaning | src/core/managers/character_manager.py:219-220 | removing keeps only listed paths; in a list without repetition it removes the path altogether and repeats nothing |
| SrcCharacterManager.SpliceDistinct | src/core/managers/character_manager.py:219-220 | leaving one element out of a list without repetition leaves a list without repetition and without that element |
| SrcCharacterManager.AddRecentMeaning | src/core/managers/character_manager.py:217-222 | the path added comes first, the list holds at most ten paths, no path twice when none was before, and the others keep their relative order |
| SrcCharacterManager.DistinctFront | src/core/managers/character_manager.py:221-222 | a new path in front of distinct paths without it, cut to a prefix, repeats nothing |
| SrcCharacterManager.AddRecentIdempotent | src/core/managers/character_manager.py:217-222 | adding the path already at the front of a list without repetition, within its limit, changes nothing |
| SrcCharacterManager.CharacterStateManager.constructor | src/core/managers/character_manager.py:28-36 | no character, not modified, not updating, empty undo, redo and recent lists |
| SrcCharacterManager.CharacterStateManager.AddRecentFile | src/core/managers/character_manager.py:217-222 | the recent list becomes the path followed by the others, at most ten; nothing else changes |
| SrcCharacterManager.CharacterStateManager.LoadCharacter | src/core/managers/character_manager.py:53-81 | on success the character becomes current, unmodified, with empty undo and redo stacks, and the path becomes recent; on the service's exception nothing but the updating flag changes; the flag is cleared either way |
| SrcCharacterManager.CharacterStateManager.SaveCharacter | src/core/managers/character_manager.py:83-117 | `None` without a character, nothing changed; on success the character counts as saved and the saved path becomes recent; on the export's exception it is raised with the state otherwise unchanged |
| SrcCharacterManager.CharacterStateManager.UpdateField | src/core/managers/character_manager.py:119-147 | without a character nothing happens; otherwise the old card goes on the undo stack, the redo stack empties, the field is set and the character counts as modified |
| SrcCharacterManager.CharacterStateManager.CreateNewCharacter | src/core/managers/character_manager.py:149-175 | on success the new character becomes current, unmodified, with empty stacks; on the service's exception nothing but the updating flag changes |
| SrcCharacterManager.CharacterStateManager.Undo | src/core/managers/character_manager.py:177-195 | false with nothing changed on an empty undo stack; otherwise the undo stack pops, the current card goes on the redo stack and the popped card, read back, becomes current |
| SrcCharacterManager.CharacterStateManager.Redo | src/core/managers/character_manager.py:197-215 | false with nothing changed on an empty redo stack; otherwise the mirror image of undo |
| SrcCharacterManager.CharacterStateManager.PushUndoState | src/core/managers/character_manager.py:224-228 | with a character its card goes on the undo stack and the redo stack empties; without one nothing changes |
| SrcCharacterManager.CharacterStateManager.ClearUndoRedo | src/core/managers/character_manager.py:230-233 | both stacks empty and nothing else changes |
| SrcCharacterManager.UndoRestoresSnapshot | src/core/managers/character_manager.py:119-193 | undoing an update brings back the character the update pushed: the same non-name fields, lists, creator and version, with the name read back from the card |
| SrcGenerationManager.CreateContextAsWritten | src/core/managers/generation_manager.py:126-135 | as written, building the context always raises the TypeError, whatever the request |
| SrcGenerationManager.CreateContext | src/core/managers/generation_manager.py:126-135 | as intended: fails exactly without a current character; otherwise the context over that character for the field, with the input recorded for the field, no field changed yet, and the mode given |
| SrcGenerationManager.DependentFields | src/core/managers/generation_manager.py:146-153 | the ordered fields from the field's first occurrence on, or none exactly when the field is not in the order |
| SrcGenerationManager.DrainConcat | src/core/managers/generation_manager.py:155-159 | running the deferred requests of one list and then another is running their concatenation |
| SrcGenerationManager.AsWrittenNothingGenerated | src/core/managers/generation_manager.py:40-135 | as written no request gets past its context: `generate_field` only signals the TypeError, and `generate_with_dependencies` raises it before generating anything |
| SrcGenerationManager.DirectRequestWritesInput | src/core/managers/generation_manager.py:40-73 | with the intended context, a direct-mode request whose template's required fields the character holds writes the input into that field alone and pushes the old card on the undo stack |
| SrcGenerationManager.FailedRequestWritesNothing | src/core/managers/generation_manager.py:59-70 | a request whose context or generation fails leaves the character alone and signals the error |
| SrcGenerationManager.DepsStepShape | src/core/managers/generation_manager.py:93-112 | one pass moves on by one field, stops exactly when that field fails, then signalling the error and leaving the character alone, and pushes at most one card on the undo stack |
| SrcGenerationManager.DepsLoopStops | src/core/managers/generation_manager.py:93-112 | the loop visits the fields in order and stops just after the first failure or after the last field, with at most one undo card per field visited |
| SrcGenerationManager.GenerationManager.constructor | src/core/managers/generation_manager.py:27-33 | not generating, an empty request queue and no signals |
| SrcGenerationManager.GenerationManager.GenerateField | src/core/managers/generation_manager.py:40-73 | while a generation runs the request is queued and nothing else changes; otherwise this request and then every queued one run, first in first out, and the flag ends clear |
| SrcGenerationManager.GenerationManager.RunRequest | src/core/managers/generation_manager.py:48-70 | build the context, generate, write a result without error into the character, and signal the outcome |
| SrcGenerationManager.GenerationManager.ProcessQueue | src/core/managers/generation_manager.py:155-159 | with the flag clear the oldest queued request runs, which drains the rest; otherwise nothing changes |
| SrcGenerationManager.GenerationManager.GenerateWithDependencies | src/core/managers/generation_manager.py:75-116 | while a generation runs the request is queued; otherwise the field and every later ordered field are generated until the first failure, the queue drains, and the context's exception, if any, is raised; without a loaded prompt set nothing is generated, the queue drains and the `AttributeError` of `_get_dependent_fields` (src/services/generation_service.py:194) is raised |
| SrcGenerationManager.GenerationManager.DepsField | src/core/managers/generation_manager.py:94-112 | one pass of the loop, equal to the specification's step |
| SrcGenerationManager.GenerationManager.RunDeps | src/core/managers/generation_manager.py:93-112 | the loop over the fields, equal to the specification's loop |
| SrcGenerationManager.GenerationManager.GenerateAll | src/core/managers/generation_manager.py:118-124 | without a loaded prompt set, the `AttributeError` of `_get_ordered_fields` with nothing changed; nothing without ordered fields; otherwise the dependents of the first ordered field, with no input, in generate mode |
| SrcGenerationManager.GenerationManager.CancelGeneration | src/core/managers/generation_manager.py:161-164 | the queue empties and the flag clears |
| SrcGenerationService.FieldOutcome | src/services/generation_service.py:27-79 | without a loaded prompt set the lookup fails; without a template the GenerationError; the DependencyError exactly when the template's required fields are not all available, naming the missing ones; a success is a result for the field without error |
| SrcGenerationService.Logged | src/services/generation_service.py:45-79 | a call records nothing exactly when it succeeds in direct mode; otherwise it records the result or the error result for the field |
| SrcGenerationService.Append | src/services/generation_service.py:200-204 | the field's history gains the result at its end; every other field's history is unchanged |
| SrcGenerationService.AppendAllPerField | src/services/generation_service.py:200-204 | recording a sequence of results extends each field's history by that field's results, in order |
| SrcGenerationService.NonNegative | src/services/generation_service.py:193-197 | exactly the templates whose generation order is not negative |
| SrcGenerationService.KeyList | src/services/generation_service.py:198 | the fields of the sorted pairs, in order |
| SrcGenerationService.OrderedFieldsMeaning | src/services/generation_service.py:191-198 | the ordered fields are exactly the fields with a template of non-negative order, in ascending order |
| SrcGenerationService.SortedHolds | src/services/generation_service.py:193-198 | a template of non-negative order is among the sorted ones |
| SrcGenerationService.SortedLookUp | src/services/generation_service.py:193-198 | each sorted template has a non-negative order and is what its field looks up |
| SrcGenerationService.OrderedFieldsDistinct | src/services/generation_service.py:191-198 | no field is listed twice among the ordered fields |
| SrcGenerationService.NonNegativeDistinct | src/services/generation_service.py:193-197 | filtering the templates keeps their fields distinct |
| SrcGenerationService.TwoCopies | src/services/generation_service.py:191-198 | an element at two positions is counted at least twice |
| SrcGenerationService.AtMostOnce | src/services/generation_service.py:191-198 | with distinct fields no template is listed twice |
| SrcGenerationService.DepsSpec | src/services/generation_service.py:81-134 | the GenerationError exactly when the field is not among the ordered fields (so also when there are none); otherwise the run over the ordered fields from that field on |
| SrcGenerationService.RunVisits | src/services/generation_service.py:97-132 | the loop visits the fields in order, one result each, and stops at the first failure |
| SrcGenerationService.StepShape | src/services/generation_service.py:97-132 | one step adds one result for its field and stops exactly on a failure; only a success is written into the character |
| SrcGenerationService.VisitsCons | src/services/generation_service.py:97-132 | results visiting the later fields after a successful first one visit all of them |
| SrcGenerationService.RunWrites | src/services/generation_service.py:114-116 | each field generated successfully ends up holding its content; every other field keeps its value |
| SrcGenerationService.StoppedWrites | src/services/generation_service.py:123-132 | a failure leaves the character as it was |
| SrcGenerationService.WritesAfterSuccess | src/services/generation_service.py:114-116 | a success followed by later results writes back from what the character held before the success |
| SrcGenerationService.FirstNotLater | src/services/generation_service.py:97 | results visiting the later fields do not hold the first |
| SrcGenerationService.WrittenCons | src/services/generation_service.py:114-116 | what the character holds after a success and the results after it |
| SrcGenerationService.RunUnfold | src/services/generation_service.py:97-132 | a run that has not stopped takes a step over the first field |
| SrcGenerationService.RunPrefixStep | src/services/generation_service.py:97-132 | after a successful first step the later fields are new to the results |
| SrcGenerationService.DepsOutcome | src/services/generation_service.py:81-134 | a run from a field of the order visits the fields from it on, in order, until the first failure, and each field holds its successful content or what it held before |
| SrcGenerationService.DepsRun | src/services/generation_service.py:90-97 | a field at a position of the order starts the run there, over distinct fields |
| SrcGenerationService.GenerationService.constructor | src/services/generation_service.py:22-25 | an empty history |
| SrcGenerationService.GenerationService.AddToHistory | src/services/generation_service.py:200-204 | the history gains the result at the end of its field's list |
| SrcGenerationService.GenerationService.GenerateField | src/services/generation_service.py:27-79 | the result or the exception, as the outcome function says, and the history gains the result or the error result, except for a direct-mode success |
| SrcGenerationService.GenerationService.GetFieldHistory | src/services/generation_service.py:206-208 | the field's history, empty when it has none |
| SrcGenerationService.GenerationService.ClearHistory | src/services/generation_service.py:210-215 | with a field, only that field's history goes; without one, all of it |
| SrcGenerationService.GenerationService.GenerateFieldWithDeps | src/services/generation_service.py:81-134 | fails exactly when the specification does, with its error and the history unchanged; otherwise the results of the fields visited and the character with the successes written in, and every `generate_field` call's record in the history |
| SrcGenerationService.GenerationService.VisitField | src/services/generation_service.py:98-132 | one pass over a field is one `Step` of the specification, and the history gains exactly that pass's record |
| SrcGenerationService.GenerationService.RunFrom | src/services/generation_service.py:97-134 | the loop from the starting field yields the results and character of `Run` over the same fields, and appends every visited field's record to the history, in order |
| SrcModels.FieldEntriesMeaning | src/core/models.py:26 | a field has an entry in the saved card exactly when the character holds it, and the entry is the field's text |
| SrcModels.DistinctSnoc | src/core/models.py:44-48 | a dictionary with distinct keys and one more entry at its end has that entry under a new key |
| SrcModels.PutSnoc | src/core/models.py:44-48 | appending an entry under a new key is assigning it |
| SrcModels.ExtrasHoldNoField | src/core/models.py:27-32 | the entries written after the fields are under keys that are neither `name` nor a field's value |
| SrcModels.ToCardEntries | src/core/models.py:21-36 | the saved card holds the name, lists, creator, version and timestamps under their keys, an entry for exactly the name and the held fields, and each held field's text |
| SrcModels.ToCardHolds | src/core/models.py:24-33 | the saved card holds the name and the entries written after the fields |
| SrcModels.ToCardFields | src/core/models.py:25-26 | the saved card holds each field's text under the field's value, and no other field entry than the name |
| SrcModels.TextListEntry | src/core/models.py:49-50 | a missing list reads as the empty list |
| SrcModels.FieldsFrom | src/core/models.py:44-48 | exactly the fields whose value is a key of the card, each with the card's text; no entry when the card names no field |
| SrcModels.TimeEntry | src/core/models.py:53-54 | the card's time when it is ISO text, `now` when the card has none, and the parse error otherwise |
| SrcModels.FromCard | src/core/models.py:41-55 | the character read has exactly the fields the card names |
| SrcModels.FromDict | src/core/models.py:38-55 | without a `data` object, the empty character with the defaults (creator `Anonymous`, version `main`, both times `now`); otherwise what the `data` object describes |
| SrcModels.CardRoundTrip | src/core/models.py:21-55 | reading back a saved card gives the same lists, creator, version, timestamps and non-name field texts; the name comes back as the saved name and also as the `name` field |
| SrcModels.SavedCardReads | src/core/models.py:21-55 | reading a saved card back gives the saved name, the card's fields and the same lists, creator, version and times |
| SrcModels.ToCardTexts | src/core/models.py:25-26 | every field entry of a saved card is a text |
| SrcModels.FieldsOfSavedCard | src/core/models.py:25-48 | the fields read back are the character's, with the `name` field holding the saved name |
| SrcModels.FromCardOfShape | src/core/models.py:41-55 | a card whose entries have the expected shapes reads back as exactly those entries |
| SrcModels.FieldsFromTexts | src/core/models.py:44-48 | a card whose field entries are all texts reads its fields without error |
| SrcModels.TemplateFrom | src/core/models.py:66-91 | the MismatchedTagError exactly when the counts of `{{if_input}}` and `{{/if_input}}` differ, reporting both; otherwise the template with the text, field and order given, whose required fields are those given plus every field a `{{tag}}` names |
| SrcModels.NewPromptTemplate | src/core/models.py:66-91 | the template construction, equal to its specification |
| SrcModels.AddTagField | src/core/models.py:86-91 | a tag that names a field and is not reserved adds that field; any other tag adds nothing |
| SrcModels.InsertByOrder | src/core/models.py:105-108 | inserting adds exactly the one entry |
| SrcModels.InsertKeepsSorted | src/core/models.py:105-108 | inserting into a list sorted by generation order keeps it sorted |
| SrcModels.SortByOrder | src/core/models.py:105-108 | a permutation of the templates sorted by generation order |
| SrcModels.RequiredComeEarlierMeaning | src/core/models.py:110-118 | the loop's check holds exactly when each template requires only fields of templates with a smaller order |
| SrcModels.ValidateMeaning | src/core/models.py:102-120 | a prompt set is valid exactly when each template requires only fields of templates with a strictly smaller generation order |
| SrcModels.SelfRequirementInvalid | src/core/models.py:110-118 | a template that requires its own field makes the set invalid |
| SrcModels.MissingTemplateInvalid | src/core/models.py:110-118 | a template that requires a field no template provides makes the set invalid |
| SrcModels.Without | src/core/models.py:155-159 | the fields other than the current one, each with its value |
| SrcModels.AvailableFields | src/core/models.py:152-159 | exactly the character's fields other than the one being generated, with their values |
| SrcPromptService.StampOf | src/services/prompt_service.py:52-53 | the file's time, or `now` when it has none, when that is ISO text; the parse error otherwise |
| SrcPromptService.LoadEntry | src/services/prompt_service.py:36-46 | an entry loads exactly when its text, order and template are valid; an entry whose key names no field is skipped |
| SrcPromptService.LoadTemplatesSucceeds | src/services/prompt_service.py:35-46 | loading succeeds exactly when every entry loads |
| SrcPromptService.EachSnoc | src/services/prompt_service.py:36 | every entry of a list with one more passes exactly when every earlier one and the last do |
| SrcPromptService.LoadTemplatesGet | src/services/prompt_service.py:35-46 | nothing under a field without an entry for it; otherwise a template with the entry's text, the file's order for the key (0 when none) and the fields the text names |
| SrcPromptService.LoadEntryGet | src/services/prompt_service.py:38-44 | one entry adds its template under its field and leaves the others |
| SrcPromptService.LoadTemplatesWellKeyed | src/services/prompt_service.py:35-46 | the templates loaded are stored under their own fields, once each |
| SrcPromptService.PutMember | src/services/prompt_service.py:44 | an entry after an assignment is the new one or was there before |
| SrcPromptService.LoadPrefixFails | src/services/prompt_service.py:36-60 | once an entry fails, loading fails with that error whatever follows |
| SrcPromptService.LoadOneMore | src/services/prompt_service.py:36-46 | loading one entry further adds that entry's result |
| SrcPromptService.PromptService.constructor | src/services/prompt_service.py:18-21 | no current prompt set |
| SrcPromptService.PromptService.LoadPromptSet | src/services/prompt_service.py:27-60 | the set the specification builds from the file, made current; on an error the current set is unchanged |
| SrcPromptService.LoadEntries | src/services/prompt_service.py:35-46 | the loop, equal to its specification |
| SrcPromptService.LoadOne | src/services/prompt_service.py:37-46 | one pass of the loop, equal to its specification |
| SrcPromptService.ReloadAll | src/services/prompt_service.py:62-84 | one reloaded template per saved template, under the same field, in order |
| SrcPromptService.SavePromptsKeys | src/services/prompt_service.py:72-79 | the saved prompts are keyed by exactly the values of the templates' fields |
| SrcPromptService.SaveLoadTemplates | src/services/prompt_service.py:35-83 | what save writes for the templates, load reads back as the reloaded templates |
| SrcPromptService.SaveSnoc | src/services/prompt_service.py:72-83 | saving one more template appends its entry under a new key with its order |
| SrcPromptService.SaveReadyPrefix | src/services/prompt_service.py:72-83 | the templates before the last are ready to save too, and none has the last one's field |
| SrcPromptService.SaveLoadStep | src/services/prompt_service.py:38-83 | loading the entry saved for one more template appends its reloaded form |
| SrcPromptService.SaveLoadRoundTrip | src/services/prompt_service.py:27-90 | what save writes, load reads back: the same name, description and creation time, and each template with its field, text and order, in order |
| SrcPromptService.SaveOrdersHolds | src/services/prompt_service.py:80-83 | the saved orders give each template its own order |
| SrcPromptService.ProcessPrompt | src/services/prompt_service.py:101-130 | the same section handling, substitutions and strip as the prompt processing of the base prompt, with the context in dictionary order |
| SrcPromptService.ValidateDependencies | src/services/prompt_service.py:132-135 | true exactly when no required field of the template is missing from the available ones; false exactly when some required field is not available |
| SrcPromptService.GetGenerationOrder | src/services/prompt_service.py:147-158 | no fields without a current set; otherwise one field per template of the set (`GenerationOrderMeaning` states which fields and in what order) |
| SrcPromptService.CreatePromptSet | src/services/prompt_service.py:137-145 | an empty set with the name and description given |
| SrcPromptService.CreatedSetIsEmpty | src/services/prompt_service.py:137-145 | a new set is valid, well keyed and has no generation order |
| SrcPromptService.TemplateFields | src/services/prompt_service.py:152-158 | the templates' fields, in order |
| SrcPromptService.GenerationOrderMeaning | src/services/prompt_service.py:147-158 | the generation order lists exactly the set's fields, once per template, by ascending order |
| SrcPromptService.SortedFieldsLookUp | src/services/prompt_service.py:152-158 | each field of the generation order looks up the template at its position |
| SrcPromptService.SortedSameEntries | src/services/prompt_service.py:154-157 | sorting keeps the entries |
| SrcPromptService.SortedEntriesLookUp | src/services/prompt_service.py:154-157 | each sorted entry is what its key looks up, and its key is its template's field |
| SrcPromptService.SortedFieldsAreKeys | src/services/prompt_service.py:152-158 | the sorted templates' fields are the dictionary's keys |
| SrcUIManager.Initial | src/core/managers/ui_manager.py:44-63 | a default record for every field, nothing expanded or focused, and the bookkeeping consistent |
| SrcUIManager.ToggleFlips | src/core/managers/ui_manager.py:95-116 | toggling flips the field's `is_expanded`, changes no other record, lists the field as expanded exactly when it now is, and keeps the bookkeeping consistent |
| SrcUIManager.ToggleTwice | src/core/managers/ui_manager.py:95-116 | toggling twice gives back the same records, the same expanded fields and the same focus |
| SrcUIManager.FocusMoves | src/core/managers/ui_manager.py:118-135 | the field given becomes the focused one and alone is marked focused, `None` leaves no field focused, and nothing else changes |
| SrcUIManager.Cleared | src/core/managers/ui_manager.py:216-238 | the same fields, nothing expanded and nothing focused |
| SrcUIManager.ClearedIsValid | src/core/managers/ui_manager.py:216-238 | clearing resets every record to its defaults and leaves consistent bookkeeping |
| SrcUIManager.Restored | src/core/managers/ui_manager.py:240-259 | restoring keeps the set of fields with a record |
| SrcUIManager.LastFocused | src/core/managers/ui_manager.py:252-254 | the last known field of the dictionary whose record is focused; none exactly when no known field's record is |
| SrcUIManager.RestoreMeaning | src/core/managers/ui_manager.py:240-259 | restoring ignores unknown fields, only adds to the end of the expanded list without repeating a field, lists every restored expanded field, and leaves the focus on the last restored focused field or where it was |
| SrcUIManager.RestoreIntoCleared | src/core/managers/ui_manager.py:216-259 | restoring into cleared bookkeeping lists as expanded exactly the fields whose record is expanded |
| SrcUIManager.RestoreKeepsExpandedAgreement | src/core/managers/ui_manager.py:240-259 | when the list and the records agree and no restored record un-expands a listed field, they still agree, and fields not restored keep their records |
| SrcUIManager.CodeOf | src/core/managers/ui_manager.py:179-184 | each level's code is between 0 and 3 |
| SrcUIManager.LevelCodes | src/core/managers/ui_manager.py:175-184 | each level has exactly one code among 0 to 3, and any other integer reads as information |
| SrcUIManager.UIStateManager.constructor | src/core/managers/ui_manager.py:44-63 | no tab, an empty dictionary per tab, the light theme, no status, and a default record for every field |
| SrcUIManager.UIStateManager.SetCurrentTab | src/core/managers/ui_manager.py:89-93 | the tab becomes current; the change is announced exactly when it differs from the previous one |
| SrcUIManager.UIStateManager.ToggleFieldExpansion | src/core/managers/ui_manager.py:95-116 | the bookkeeping becomes the toggled one and nothing else changes |
| SrcUIManager.UIStateManager.SetFieldFocus | src/core/managers/ui_manager.py:118-135 | the bookkeeping becomes the refocused one and nothing else changes |
| SrcUIManager.UIStateManager.SetFieldMode | src/core/managers/ui_manager.py:137-146 | the mode is set, and the change announced exactly when it differs; nothing else changes |
| SrcUIManager.UIStateManager.SaveFieldState | src/core/managers/ui_manager.py:148-156 | the field's scroll position and height are set and nothing else changes |
| SrcUIManager.UIStateManager.GetFieldState | src/core/managers/ui_manager.py:158-160 | the field's record, or a default one for an unknown field |
| SrcUIManager.UIStateManager.SaveTabState | src/core/managers/ui_manager.py:162-169 | the tab's dictionary updated with the given entries, which win |
| SrcUIManager.UIStateManager.GetTabState | src/core/managers/ui_manager.py:171-173 | the tab's dictionary, or an empty one |
| SrcUIManager.UIStateManager.ShowStatusMessage | src/core/managers/ui_manager.py:175-188 | the message and the level become current, an integer level read through the mapping, and nothing else changes; then the emit raises the `TypeError` of a `StatusLevel` passed where the `(str, int)` signal takes an `int` |
| SrcUIManager.UIStateManager.ClearStatus | src/core/managers/ui_manager.py:79-83 | no message and the information level |
| SrcUIManager.UIStateManager.GetCurrentStatus | src/core/managers/ui_manager.py:85-87 | the current message and level |
| SrcUIManager.UIStateManager.SetTheme | src/core/managers/ui_manager.py:190-198 | the theme becomes the one given, announced exactly when it differs |
| SrcUIManager.UIStateManager.RequestDialog | src/core/managers/ui_manager.py:200-206 | the parameters announced, an empty dictionary when none are given |
| SrcUIManager.UIStateManager.GetExpandedFields | src/core/managers/ui_manager.py:208-210 | the expanded fields |
| SrcUIManager.UIStateManager.GetFocusedField | src/core/managers/ui_manager.py:212-214 | the focused field |
| SrcUIManager.UIStateManager.ClearFieldStates | src/core/managers/ui_manager.py:216-238 | every record reset, one field at a time, then the expanded list and the focus cleared |
| SrcUIManager.UIStateManager.RestoreFieldStates | src/core/managers/ui_manager.py:240-259 | the entries restored in dictionary order, unknown fields ignored |
| CoreStateBase.Finished | core/state/base.py:114-124 | the stack is popped exactly when the name is the innermost operation, and then loses only that name |
| CoreStateBase.BatchEvents | core/state/base.py:77-93 | one event per entry of the batch |
| CoreStateBase.AppliedMeaning | core/state/base.py:83-84 | keys outside the batch keep what they held; a key of a batch without repeated keys holds the batch's value |
| CoreStateBase.UndoBatchEvents | core/state/base.py:77-104 | undoing a batch's events from any state restores what the batch's keys held before it and touches no other key |
| CoreStateBase.BatchRollsBack | core/state/base.py:77-104 | the old values the batch records are enough to roll it back: every key holds what it held before |
| CoreStateBase.EventsRecordChange | core/state/base.py:83-93 | each event names its key, the value the key held just before the batch, the value it holds just after, and the innermost operation |
| CoreStateBase.RunWork | core/state/base.py:57-70 | the operation stack is the same after the work as before, whether or not a step raised, and the history only grows |
| CoreStateBase.RunSteps | core/state/base.py:57-70 | running the steps from some position keeps the stack and only grows the history |
| CoreStateBase.WorkSources | core/state/base.py:57-128 | every change recorded while the work runs is tagged with its operation or one nested in it |
| CoreStateBase.StepsSources | core/state/base.py:57-91 | every change recorded by the later steps is tagged with the operation or one nested in it |
| CoreStateBase.NamesFromGrows | core/state/base.py:57-70 | the names of the later steps' operations are among the work's |
| CoreStateBase.NewEventsSplit | core/state/base.py:93 | a change new since one point is new since an intermediate point or before it |
| CoreStateBase.BatchSources | core/state/base.py:87-92 | every event of a batch carries the operation it ran in |
| CoreStateBase.EventsOfMeaning | core/state/base.py:135-140 | the history for a key holds each change of that key as often as the whole history does, no other change, in the order made |
| CoreStateBase.StateManagerBase.constructor | core/state/base.py:29-36 | an empty state, operation stack and history |
| CoreStateBase.StateManagerBase.GetState | core/state/base.py:38-41 | the stored value, or the default for a missing key |
| CoreStateBase.StateManagerBase.UpdateState | core/state/base.py:43-55 | a value Python's `==` finds equal to the stored one (`None` for a missing key; `True`, `1` and `1.0` alike) changes nothing and answers false; any other value is stored and the answer is true; either way the key then holds a value equal to the one given |
| CoreStateBase.StateManagerBase.BatchUpdate | core/state/base.py:72-107 | always true; every entry assigned in order with one event each, tagged with the innermost operation |
| CoreStateBase.StateManagerBase.Operation | core/state/base.py:57-70 | the state, stack, history and raised message are those of running the work inside the operation |
| CoreStateBase.StateManagerBase.StartOperation | core/state/base.py:109-112 | the name is pushed and nothing else changes |
| CoreStateBase.StateManagerBase.CompleteOperation | core/state/base.py:114-118 | the name is popped only when it is the innermost operation |
| CoreStateBase.StateManagerBase.FailOperation | core/state/base.py:120-124 | the same pop as completing |
| CoreStateBase.StateManagerBase.ClearHistory | core/state/base.py:130-133 | the history empties and nothing else changes |
| CoreStateBase.StateManagerBase.GetHistory | core/state/base.py:135-140 | the whole history, or the changes of one key |
| CoreStateBase.EventsOfSnoc | core/state/base.py:135-140 | one more change adds itself to its key's history and nothing to the others |
| CoreStateBase.UpdateIdempotent | core/state/base.py:43-55 | a second update with the value just stored changes nothing and answers false |
| CoreStateBase.UpdateKeepsEqualNumber | core/state/base.py:46-48 | with `1` stored, updating to `True` or to `1.0` keeps the `1` and answers false, while updating to `"1"` changes the state |
| CoreStateBase.StartThenComplete | core/state/base.py:109-118 | completing the operation just started restores the stack |
| CoreTracking.InsertSorted | core/services/generation_tracking.py:36 | inserting into pending requests sorted by priority descending and creation time keeps them sorted |
| CoreTracking.InsertPerm | core/services/generation_tracking.py:33-36 | inserting adds exactly the one request |
| CoreTracking.SortSorts | core/services/generation_tracking.py:36 | the sort gives the same requests, sorted by priority descending and creation time |
| CoreTracking.InsertApart | core/services/generation_tracking.py:33-36 | inserting a request with a new id keeps pending and in-progress requests apart |
| CoreTracking.InsertElems | core/services/generation_tracking.py:33-36 | every request after inserting is the new one or was pending |
| CoreTracking.SortApart | core/services/generation_tracking.py:36 | sorting keeps pending and in-progress requests apart |
| CoreTracking.SortElems | core/services/generation_tracking.py:36 | sorting adds no request |
| CoreTracking.QueueCounted | core/services/generation_tracking.py:29-37 | queuing a request with a new id keeps the in-progress counter equal to the number in progress |
| CoreTracking.StartCounted | core/services/generation_tracking.py:55-58 | starting the head of pending keeps the counter right |
| CoreTracking.FinishCounted | core/services/generation_tracking.py:70-204 | completing, failing or cancelling a request in progress keeps the counter right |
| CoreTracking.RetryCounted | core/services/generation_tracking.py:134-137 | sending a failed request back to pending keeps the counter right |
| CoreTracking.DropCounted | core/services/generation_tracking.py:184-186 | dropping a pending request keeps the counter right |
| CoreTracking.FirstWith | core/services/generation_tracking.py:173-185 | the first position of a pending request with the id, or the length when none has it |
| CoreTracking.GenerationTrackingService.constructor | core/services/generation_tracking.py:15-21 | nothing pending, in progress or recorded, and the counter at 0 |
| CoreTracking.GenerationTrackingService.QueueGeneration | core/services/generation_tracking.py:29-45 | the request joins pending, which is sorted again and holds exactly one more request; the counter stays right for a new id |
| CoreTracking.GenerationTrackingService.StartNextGeneration | core/services/generation_tracking.py:47-68 | nothing exactly at the cap of three or with nothing pending; otherwise the head of pending, which sorts first, goes in progress and the counter rises |
| CoreTracking.GenerationTrackingService.CompleteGeneration | core/services/generation_tracking.py:70-107 | the StateError exactly when the request is not in progress, with nothing changed; otherwise a completed result and the request leaves progress |
| CoreTracking.GenerationTrackingService.FailGeneration | core/services/generation_tracking.py:109-150 | the StateError exactly when the request is not in progress; otherwise a failed result with the retry count from before; with retries left the request goes back to the end of pending with one more retry, else it is recorded as failed |
| CoreTracking.GenerationTrackingService.GetQueueStatus | core/services/generation_tracking.py:152-160 | the counts of pending, completed, failed and cancelled requests, and the counter, which equals the number in progress |
| CoreTracking.GenerationTrackingService.FindPending | core/services/generation_tracking.py:173-185 | the first position of a pending request with the id |
| CoreTracking.GenerationTrackingService.GetGenerationStatus | core/services/generation_tracking.py:162-177 | in progress, completed, failed and cancelled looked up in that order, then queued exactly when a pending request has the id, else none |
| CoreTracking.GenerationTrackingService.CancelGeneration | core/services/generation_tracking.py:179-220 | true exactly when a pending request or one in progress has the id; the first pending one, or else the one in progress, is dropped with a cancelled result; false changes nothing |
| CoreUIState.Attr | core/models/ui.py:30-40 | an attribute's value exactly for the nine attributes of a field record, and none for any other key |
| CoreUIState.AssignedMeaning | core/state/ui.py:60-63 | after the `setattr` loop an attribute holds its update when there is one and its old value otherwise; other keys are not stored |
| CoreUIState.SetAttrExtends | core/state/ui.py:60-63 | writing one more key after the others is the loop over the larger dictionary, whatever the order of the keys |
| CoreUIState.Written | core/state/ui.py:55-73 | the field has a record afterwards and no other field is added |
| CoreUIState.Unfocused | core/state/ui.py:198-200 | clearing a field's focus adds at most that field's record and leaves the expanded list alone |
| CoreUIState.Refocused | core/state/ui.py:75-82 | the field's record is untouched, no field loses its record, the expanded list is unchanged, and only the previously focused field can gain a record |
| CoreUIState.FieldStateSet | core/state/ui.py:51-100 | the field and every earlier field have a record, only the previously focused field can gain one besides it, and the tab, dialogs, status and loading flag are unchanged |
| CoreUIState.ClearFocusUnfocuses | core/state/ui.py:198-200 | the nested update of `_clear_focus` marks the field not focused and drops the focus if it was that field |
| CoreUIState.InitialValid | core/models/ui.py:30-40 | the initial state is consistent |
| CoreUIState.AtMostOneFocused | core/state/ui.py:75-82 | in a consistent state at most one field's record says it is focused |
| CoreUIState.FieldStateEntry | core/state/ui.py:55-87 | the field's record afterwards is its earlier record, or a default one for a new field, with every update naming an attribute written over it and stamped when the content changed |
| CoreUIState.NewFieldStartsDefault | core/state/ui.py:55-63 | a new field's attributes hold their update or else their default; keys naming no attribute are not stored |
| CoreUIState.OtherFieldKept | core/state/ui.py:51-100 | a field other than the one updated keeps its record unless a focus move clears it |
| CoreUIState.Settable | core/state/ui.py:61-62 | exactly the updates that name an attribute, with their values |
| CoreUIState.UnknownKeysIgnored | core/state/ui.py:61-63 | update keys that name no attribute change nothing |
| CoreUIState.ExpandedAfterMeaning | core/state/ui.py:66-72 | the expanded list holds the field exactly when the update's value is truthy, or as before without one; other fields are as before; nothing is listed twice |
| CoreUIState.ExpandedTracksLastUpdate | core/state/ui.py:66-73 | after an `is_expanded` update the expanded list holds the field exactly when the value is truthy, every other field as before, nothing twice |
| CoreUIState.FocusMovesOn | core/state/ui.py:75-79 | focusing makes the field the focused one; the previously focused field, when it has a non-empty name and differs, is marked not focused and otherwise kept |
| CoreUIState.UnfocusClears | core/state/ui.py:80-81 | unfocusing the focused field leaves no field focused; unfocusing another leaves the focus where it was |
| CoreUIState.ContentMarksModified | core/state/ui.py:84-87 | a content update stores the content, marks the field modified and stamps it with the time of the update |
| CoreUIState.RecordsAfter | core/state/ui.py:51-100 | each field's record after the update is the updated one for the field, the unfocused one for the previously focused field, and otherwise unchanged |
| CoreUIState.SetFieldStateKeepsValid | core/state/ui.py:51-100 | for a field with a non-empty name, the update keeps the expanded list and the focus in agreement with the records |
| CoreUIState.KeepsExpanded | core/state/ui.py:60-73 | the expanded list lists without repetition exactly the fields whose record is expanded |
| CoreUIState.KeepsFocus | core/state/ui.py:60-82 | a field's record says it is focused exactly when it is the focused field, never the empty name |
| CoreUIState.UnfocusFocus | core/state/ui.py:75-82 | without a focus move the focused field is the one before, or none once the field is unfocused |
| CoreUIState.EmptyNameKeepsFocus | core/state/ui.py:77-78 | a field named by the empty text is not unfocused when another field takes the focus, since only a truthy focused name is unfocused: both then say they are focused |
| CoreUIState.Without | core/state/ui.py:126-129 | exactly the dialogs of other types, in stack order |
| CoreUIState.Closed | core/state/ui.py:117-136 | an empty stack is left alone with nothing announced; without a type the top dialog is popped and its type announced; with a type every dialog of that type is removed and the type announced |
| CoreUIState.ShowThenClose | core/state/ui.py:102-136 | closing the top dialog undoes showing it |
| CoreUIState.CloseByTypeKeepsOthers | core/state/ui.py:124-129 | closing by type changes nothing exactly when no dialog has the type, and closing the same type twice is closing it once |
| CoreUIState.ReactionTo | core/state/ui.py:181-196 | a field update exactly for `field_updated` with a value holding a textual `field` and a `value`; the error exactly for `field_updated` with a value lacking either, a KeyError when the value is a dictionary |
| CoreUIState.CharacterUpdateMarksModified | core/state/ui.py:181-189 | a field update from the character state stores the new content and marks the field modified |
| CoreUIState.UIStateManager.constructor | core/state/ui.py:25-33 | the initial UI state and the error handler given |
| CoreUIState.UIStateManager.SwitchTab | core/state/ui.py:35-49 | the tab becomes current and nothing else changes; the change is announced exactly for a different tab |
| CoreUIState.UIStateManager.SetFieldState | core/state/ui.py:51-100 | the state becomes the specification's updated state |
| CoreUIState.UIStateManager.WriteAttributes | core/state/ui.py:60-63 | the loop's record is the specification's assigned record |
| CoreUIState.UIStateManager.UpdateExpanded | core/state/ui.py:66-73 | only the expanded list changes, as the specification says |
| CoreUIState.UIStateManager.UpdateFocus | core/state/ui.py:75-82 | the state becomes the specification's refocused state |
| CoreUIState.UIStateManager.ClearFocus | core/state/ui.py:198-200 | the nested `set_field_state` with `is_focused` false |
| CoreUIState.UIStateManager.ShowDialog | core/state/ui.py:102-115 | the dialog is pushed and nothing else changes |
| CoreUIState.UIStateManager.CloseDialog | core/state/ui.py:117-143 | the stack and the announced type are those of the specification; nothing else changes |
| CoreUIState.UIStateManager.ShowStatus | core/state/ui.py:145-163 | the status becomes the message, level, time and duration given; nothing else changes |
| CoreUIState.UIStateManager.SetLoading | core/state/ui.py:165-179 | the loading flag is set, the change announced exactly when it differs |
| CoreUIState.UIStateManager.HandleCharacterStateChange | core/state/ui.py:181-196 | a field update becomes a `set_field_state` with the content marked modified; any other key changes nothing; a malformed update changes no state and appends one error record of its class |
| CoreUIState.UIStateManager.GetFieldState | core/state/ui.py:202-204 | the field's record, none exactly when it has none |
| CoreValidation.FirstBadExample | core/services/validation.py:186-193 | the first example that is not a dictionary with a `message` entry; none exactly when every example is one |
| CoreValidation.Check | core/services/validation.py:59-97 | valid exactly when every validator returns a passing result, and then the pass result for the field type; otherwise the first failure or the exception's error result |
| CoreValidation.NameRule | core/services/validation.py:35-137 | a name passes exactly when it is not blank, has 2 to 50 characters and holds only word characters, whitespace and `-`; a blank one is reported as required at error level, an over-long one as a warning |
| CoreValidation.DescriptionRule | core/services/validation.py:41-148 | a description passes exactly when it has at most 1000 characters |
| CoreValidation.FirstMessageRule | core/services/validation.py:44-177 | a first message passes exactly when it is not blank and has 10 to 2000 characters |
| CoreValidation.ExamplesRule | core/services/validation.py:48-214 | examples pass exactly when they are a list of 2 to 10 dictionaries that each have a `message` entry |
| CoreValidation.UnregisteredPasses | core/services/validation.py:64-77 | a field type without validators always passes |
| CoreValidation.ValidationService.constructor | core/services/validation.py:29-51 | the default validators registered, in their order |
| CoreValidation.ValidationService.RegisterValidator | core/services/validation.py:53-57 | the validator is appended to the field type's list, started if needed; nothing else changes |
| CoreValidation.ValidationService.ValidateExamplesFormat | core/services/validation.py:179-198 | the loop's result is the examples-format validator's |
| CoreValidation.ValidationService.RunValidator | core/services/validation.py:68 | one validator's result or exception |
| CoreValidation.ValidationService.ValidateField | core/services/validation.py:59-97 | the specification's result for the field type's validators |
| CoreVersioning.TypeNamed | core/models/versioning.py:6-65 | the change type with exactly that member name, none when no type has it |
| CoreVersioning.FieldHistory | core/models/versioning.py:98-103 | exactly the changes that touched the field, in order |
| CoreVersioning.FreshCoherent | core/models/versioning.py:29-31 | a fresh history is coherent |
| CoreVersioning.AddKeeps | core/models/versioning.py:74-96 | recording a change one past the current version, with the current as parent, keeps a history coherent |
| CoreVersioning.ChangeOfVersion | core/models/versioning.py:74-110 | in a coherent history exactly the versions 2 to the current one have a change; version v's change sits at index v - 2 with parent v - 1 |
| CoreVersioning.LastTouchIsNewest | core/models/versioning.py:98-103 | the last change that touched a field has the highest version among those that did |
| CoreVersioning.LatestIsNewest | core/models/versioning.py:92-114 | the field's latest version is the highest among its history, and none exactly when the field has no history |
| CoreVersioning.ChangesJson | core/models/versioning.py:37-48 | one saved form per change, in order |
| CoreVersioning.IntEntry | core/models/versioning.py:64 | the integer under the key; fails exactly when the key is missing or not an integer |
| CoreVersioning.RequiredText | core/models/versioning.py:65-68 | the text under the key; fails exactly when the key is missing or not a text |
| CoreVersioning.ChangeFrom | core/models/versioning.py:63-71 | a change that is not a dictionary, or lacks `version`, fails; a read change has the saved version, no metadata when none was saved and no parent when none or `None` was saved |
| CoreVersioning.CurrentFrom | core/models/versioning.py:57 | 1 when no current version is saved |
| CoreVersioning.FieldVersionsFrom | core/models/versioning.py:58 | no field versions when none are saved |
| CoreVersioning.ItemsFrom | core/models/versioning.py:62 | no changes when none are saved, the items of a saved list, and only an empty object or text besides |
| CoreVersioning.HeaderFrom | core/models/versioning.py:57-62 | succeeds exactly when the current version, the field versions and the changes are read; the empty dictionary gives the defaults |
| CoreVersioning.ChangeRoundTrip | core/models/versioning.py:37-71 | a change reads back from its saved form unchanged exactly when its timestamp is ISO text, and otherwise fails on it |
| CoreVersioning.DictRoundTrip | core/models/versioning.py:33-72 | reading back what `to_dict` writes gives the same current version and field versions, and each change back unless its timestamp is not ISO text |
| CoreVersioning.ReadBackSame | core/models/versioning.py:61-72 | changes read back one by one from the saved forms are the original changes |
| CoreVersioning.VersionHistory.constructor | core/models/versioning.py:29-31 | version 1, no changes, no field versions, consistent |
| CoreVersioning.VersionHistory.FromDict | core/models/versioning.py:52-72 | the empty dictionary changes nothing; otherwise the current version, then the field versions are replaced, the changes emptied and filled with those read back in order; the first entry that cannot be read aborts with what was assigned before it kept |
| CoreVersioning.VersionHistory.ReadChanges | core/models/versioning.py:61-72 | the changes read, in order, up to the first that does not read, whose error is reported |
| CoreVersioning.VersionHistory.AddChange | core/models/versioning.py:74-96 | a change one past the current version with the current one as parent is appended and becomes current, and each of its fields is marked as last changed in it; consistency is kept |
| CoreVersioning.VersionHistory.GetChange | core/models/versioning.py:105-110 | the first change with the version, none exactly when no change has it |
| Tags.FieldTagAtIff | character_gen.py:95 | the placeholder pattern matches at a position with a name exactly when the text there spells that name in double braces |
| Tags.FindFieldTags | character_gen.py:95 | every name the placeholder scan finds is a non-empty run of word characters |
| Tags.SubInputBlocksSection | character_gen.py:110-121 | a `{{if_input}}` section whose body holds no closing marker is replaced by its body or by nothing |
| Fields.FromValue | src/core/enums.py:3-10 | the member whose value is the text, or the ValueError case |
| Fields.FromValueInvertsValue | src/core/enums.py:3-10 | looking a field up by its value gives the field back, and only the values of fields are found |
| Fields.NoFieldIsReserved | src/core/enums.py:3-10 | no field's value is a reserved tag |
| Fields.ValueInjective | src/core/enums.py:3-10 | distinct fields have distinct values |
| IsoTime.FormatRoundTrip | core/models/versioning.py:41-66 | what `isoformat()` writes for a naive datetime, `fromisoformat` reads back as the same datetime |
| IsoTime.FormatIsIso | core/models/versioning.py:41-66 | a timestamp `isoformat()` wrote is accepted by `fromisoformat` |
| JsonValues.TextsOfStrList | src/core/models.py:27-50 | a list of texts written out reads back as the same list |
| JsonValues.PyEqRefl | core/state/base.py:47 | every value is `==` to itself, lists and dictionaries included |
| JsonValues.PyEqSym | core/state/base.py:47 | `a == b` exactly when `b == a` |

## Left out

- Tags.IsWordChar: `\w` is read as ASCII `[A-Za-z0-9_]`. Python 3 matches any Unicode letter or digit, so a placeholder such as `{{zoë}}` is one word in the source but not in the model.
- CoreValidation.NameChar: the name check allows ASCII letters and digits only, while the source's `\w` is Unicode. The name "Zoë" passes `_validate_name_chars` in the source and is refused in the model.
- CoreCharacterHandler.AlphaNumeric: `str.isalnum` is restricted to ASCII. For the name "Zoë", `_get_default_path` keeps the "ë" in the source but drops it in the model.
- CharacterGen.PromptFrom: outputs are substituted in generation order. The source iterates the set `get_available_fields` returns (character_gen.py:176-182), so its order is hash order. The two readings differ only when one output contains another field's `{{placeholder}}`.
- CharacterGen.OutputsAmong: lists the available outputs in generation order, for the same reason as `PromptFrom`.
- SrcCharacterManager.SetField: besides the field names, only the text attributes `creator` and `version` are written. The source's `hasattr`/`setattr` would also overwrite `tags`, `alternate_greetings`, `image_data`, `fields`, `created_at` and `modified_at` with the given text; those names leave the character unchanged here.
- CoreCharacter.Apply: refuses a value of the wrong type for a known attribute with `WrongType`. `CharacterGenMetadata.update` never raises: it sets a value of any type, and it also overwrites method names such as `update` and `to_dict`.
- CoreCharacter.UpdateSpec: stops at the first entry `Apply` refuses, for the same reason; the source applies every entry.
- CoreQueue.GenerationQueueManager.Enqueue: a queued request's clock reading is its id, so readings always differ and increase. Two requests queued at the same `datetime.now()` are not modelled.
- CoreQueue.GenerationQueueManager.ClearCompleted: only `clear_completed()` without `max_age` is modelled, because a result's end time is not modelled.
- CoreQueue.GenerationQueueManager.ClearFailed: only `clear_failed()` without `max_age` is modelled, for the same reason.
- CoreVersioning.VersionHistory.FromDict: `current_version` must be an integer and `field_versions` an object of integers. The source stores values of any type as they are. A value of another type is reported as `WrongType` here. A bad `current_version` leaves the whole history unchanged. Bad `field_versions` keep the old field versions and changes. A change entry is read by `ChangeFrom`, with the refusals listed for it below.
- CoreVersioning.VersionHistory.ReadChanges: stops at the first change entry `ChangeFrom` refuses. The source raises only where `ChangeType[...]`, `datetime.fromisoformat` or indexing raises; an entry refused here only for a value's type is kept in the source.
- CoreVersioning.ChangeFrom: refuses a `version` or `parent_version` that is not an integer, `fields_changed` that is not a list of texts, a `change_description` that is not a text and `change_metadata` that is not an object. The source's `VersionChange` stores each of those as it is. A non-text `change_type` or `timestamp` raises in the source too.
- CoreVersioning.IntEntry: a value that is not an integer is `WrongType`; the source stores it as it is, since the dataclass does not check types.
- CoreVersioning.RequiredText: a value that is not a text is `WrongType`; for `change_description` the source stores it as it is, while for `change_type` and `timestamp` it raises as well.
- CoreCharacter.MetaFrom: refuses a `generation_history`, `validation_state` or `custom_settings` that is not an object, and a `version`, `created_with`, `last_modified_with` or `last_modified` that is not a text (or, for `last_modified`, null). `CharacterGenMetadata.from_dict` stores each as it is. A truthy `last_validated` that is not ISO text, and metadata that is neither null nor an object, raise in the source too.
- CoreCharacter.CharacterGenMetadata.FromDict: inherits the refusals of `MetaFrom`.
- CoreCharacter.TextsFrom: a text field whose value is not a text is `WrongType`. The source's `CharacterData` constructor stores it as it is.
- CoreCharacter.TemplateFrom: refuses a text field that is not a text, as `TextsFrom` does, and an `alternate_greetings` or `tags` entry that is not a list of texts; the source stores each as it is.
- CoreCharacter.TextListEntry: a value that is not a list of texts is `WrongType`; the source stores it as it is.
- CoreCharacter.LoadedFrom: inherits the refusals of `TemplateFrom` and `MetaFrom`. Extensions that are truthy but not an object raise in the source too.
- CoreCharacter.CardFrom: inherits the refusals of `LoadedFrom`. A `data` entry that is not an object raises in the source too, since it has no `get`.
- CoreCharacter.CharacterData.FromDict: inherits the refusals of `CardFrom`.
- SrcModels.TextListEntry: a value that is not a list of texts is `NotTextList`; `CharacterData` stores it as it is in the source.
- SrcModels.FieldsFrom: a field whose value is not a text is `NotText`; the source stores it as it is.
- SrcModels.FromCard: refuses a `name`, `creator` or `character_version` that is not a text, besides the refusals of `FieldsFrom` and `TextListEntry`; the source stores each as it is. A timestamp that is not ISO text raises in the source too.
- SrcModels.FromDict: inherits the refusals of `FromCard`. A `data` entry that is not an object raises in the source too.
- CoreUIState.ReactionTo: a `field_updated` value whose `field` is not a text is `Ignored`. The source sets a field state under a number, boolean or `None` key, and raises `TypeError` for a list or dictionary key, which the error handler records; field states keyed by anything but text are not modelled.
- CoreUIState.UIStateManager.HandleCharacterStateChange: changes nothing for a `field` that is not a text, as `ReactionTo` says.
- IsoTime.IsIsoFormat: only acceptance by `fromisoformat` is modelled. A timestamp keeps the text it was read from. The source parses it with `fromisoformat` and writes it back with `isoformat()`, which can change its text. For example, `2024-01-01` is written back as `2024-01-01T00:00:00` in the source, and unchanged here. The grammar is the one `fromisoformat` accepts up to Python 3.10; from 3.11 on it also accepts, for example, a trailing `Z` and the basic form `20240101`, which are refused here.
- CoreBatch.ProgressPercentage: the float division is exact real arithmetic, without rounding.
- CoreMetadata.Used: the running average of generation times is an exact real, without float rounding.
- CoreMetadata.MetadataManager.RecordGeneration: the `error_handler.handle_error` report on failure is not modelled; the model changes nothing on that path.
- CoreMetadata.MetadataManager.RecordManualEdit: the error handler's report is not modelled, as for `RecordGeneration`.
- CoreValidation.ValidationService.ValidateField: the error handler's report of a raising validator is not modelled; only the result returned is.
- CoreCharacterHandler.CharacterDataHandler.LoadCharacter: the error handler's report and the file lock are not modelled.
- CoreCharacterHandler.CharacterDataHandler.SaveCharacter: the error handler's report and the file lock are not modelled.
- CoreCharacterHandler.CharacterDataHandler.ExportCharacter: the error handler's report and the file lock are not modelled.
- SrcModels.GenerationResult: the `timestamp` is not modelled. The service's progress callbacks and Qt signals are not modelled either; the managers record signals as an event log.
- SrcGenerationService: `generate_alternate_greeting` and `append_message_example` (src/services/generation_service.py:136-189) are not modelled. They only build a prompt and call the API, with no state or ordering logic.
- SrcPromptService: `list_prompt_sets` and `_ensure_directories` are not modelled, because they only list or create directories. Load and save take the parsed JSON document and return the document to write.
- CoreTracking: `_reset_state` is not modelled, because it only rebuilds the constructor's state for tests.
- SrcUIManager.UIStateManager.ShowStatusMessage: models the second `show_status_message` (src/core/managers/ui_manager.py:175-188), which replaces the first definition (70-77) when the class is built. The timer that would clear the message is not modelled.
- CoreUIState: Qt signals, the `operation()` context manager, the interpreter's `TypeError` text and traceback text are parameters or not modelled. `set_field_state` writes only the `FieldState` dataclass fields. `hasattr` would also accept its method and dunder names, which are not modelled.
- CoreContextPreservation: the storage directory is a map from id to context, so the JSON file format is not modelled. That includes the fallback to the current time when `created_at` does not parse (core/services/context_preservation.py:190-194).
- CoreCharacterState.CharacterStateManager.Redo: the 50-entry cap holds only on pushes by `update_field`. A redo onto a full undo stack may leave 51 entries, as in the source.
- Time, identities and I/O: `datetime.now()`, `uuid4()`, file contents, directory creation and API replies are parameters of the operations that use them. `asyncio` locks, `threading` locks and `async` are read as sequential code.
- Logging is not modelled: a logged and swallowed exception leaves the state as the failed statement found it.
- Qt widgets, windows and dialogs, network retry loops, YAML and PNG files, configuration loaders and the `core/services/file.py` backups are not modelled. `core/services/versioning.py` is not part of this model, because it calls character methods the character model does not define; only `VersionHistory` is modelled.

## Findings

| source | as written | input that shows it | evidently intended | confidence | as-written member | corrected member |
|---|---|---|---|---|---|---|
| src/core/managers/generation_manager.py:126-135 | `_create_context` passes `field_inputs` and `changed_fields` to `GenerationContext`, whose fields are `character_data`, `current_field`, `user_input`, `generation_mode` and `max_retries` (src/core/models.py:144-150). Every call raises `TypeError`, so `generate_field` only signals the error, and `generate_with_dependencies` raises it before generating anything. | any request, e.g. `generate_field(FieldName.NAME, "Ann", GenerationMode.DIRECT)` with a current character | a context over the current character for the requested field, carrying the user's input | not executed | SrcGenerationManager.AsWrittenNothingGenerated | SrcGenerationManager.CreateContext |
| core/state/character.py:234 | `initialize` picks the newest auto-save with `max(auto_saves, key=lambda p: p.stat().mtime)`. `stat()` returns an `os.stat_result`, whose field is `st_mtime`, and `max` calls the key on every file, the first one included. Any auto-save therefore raises `AttributeError`, which is handled as a warning, and nothing is ever recovered. | `initialize()` with no character loaded and one file `auto_save_abc.json` in the temporary directory | the key `p.stat().st_mtime`, so that the newest auto-save is recovered and marked modified | not executed | CoreCharacterState.AutoSaveNeverRecoveredAsWritten | CoreCharacterState.CharacterStateManager.Initialize |
| core/services/character_handler.py:173-177 | `create_character` stores a plain `dict` as `_charactergen_metadata`. `CharacterData.to_dict` calls `.to_dict()` on it (core/models/character.py:123), so saving the new character fails. | `create_character("Ann")` followed by `save_character` of the result | the default `CharacterGenMetadata` object, so that the new character saves and loads back with its name | not executed | CoreCharacterHandler.CreatedCharacterSaveAsWritten | CoreCharacterHandler.CharacterDataHandler.CreateCharacter |
