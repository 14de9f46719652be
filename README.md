# ddev-ui client core, modelled in Dafny

This project models the client-side layer of ddev-ui, the desktop front end
for the `ddev` command-line tool. It covers these parts:

- **The process runner** (`ddevShell`). It builds the argument vector and the
  working directory. It collects stdout and stderr chunks into one buffer and
  echoes them in stream mode. On exit it dispatches on the exit code. It is
  the class `DdevShell.ShellProcess`, driven by a given chunk sequence and
  exit code.
- **The wrappers built on that runner.**
  - `list`, `describe` and `describeModal` frame newline-separated JSON
    output. `JSON.parse` is an oracle.
  - `remove`, `config`, `start`/`stop`/`restart` and `hostname` build argument
    lists and command lines.
  - `sudo` lets only an allow-listed command through.
- **The tabular `ddev list` parser of the socket server** (`parseListLines`).
  It classifies one stdout chunk. A table is collapsed, split into fields,
  cut into rows of five with a `while` loop, and filtered with a `for` loop.
- **The input validators** of the renderer and of the older site creator:
  - hostname grammar;
  - CMS type sets;
  - ENOENT error mapping;
  - docroot joining;
  - the existing-configuration decision.
- **The provisioning workflows.**
  - Both `addCMS` chains and `addCMSFromExisting` are promise chains over
    steps: validate, extract, check config, configure, update hosts, start.
    The model states which steps run and what the user sees.
  - The helpers around them: CMS archive choice, working-folder derivation,
    and `ddev config` argument construction.
  - The form's install-profile rule.
- **The dashboard poller.** A tick replaces the state and re-renders the cards
  and router-status label only when the listed sites differ.

The hostname regular expression is modelled as a finite automaton
(`HostnameGrammar.RegexTest`). The model proves it equal to a declarative
grammar (`HostnameGrammar.WellFormedHost`):

- a name is dot-separated labels;
- each label is runs joined by single hyphens;
- runs are letters or digits, and after the first label the hyphen segments
  may also contain U+200C and U+200B.

Those two zero-width characters are in the source's character class.

Modules: `Common` (results, errors, promise settlement), `Strings` (the
JavaScript string operations used), `HostnameGrammar`, `DdevShell`,
`SocketList`, `Helpers`, `Provisioning` (the step chain shared by the
workflows), `SiteCreator`, `CreateProject`, `UI`.

## Model

| member | source | states |
|---|---|---|
| Common.FirstFailure | src/renderer/components/CreateProject/index.js:39-45 | `Promise.all` over validators that have all settled succeeds iff every check succeeded, and its error is one of the checks' errors |
| Common.FirstFailureIsFirst | js/site-creator.js:99-105 | the rejection reported is the first one in listing order: every check before it succeeded |
| Common.FirstFailureOfThree | src/renderer/components/CreateProject/index.js:54-60 | with three validators, the result is the first failing one's error, or success |
| Common.FirstSettled | src/renderer/modules/ddev-shell.js:74-98 | a promise whose handlers run in turn stays pending iff every handler leaves it pending; otherwise it holds one of their settlements |
| Common.FirstSettledIsFirst | src/renderer/modules/ddev-shell.js:76-97 | the promise holds the settlement of the first handler that settles it |
| Common.FirstSettledSnoc | src/renderer/modules/ddev-shell.js:76-97 | one more handler call changes the outcome only while the promise is still pending |
| Common.FirstSettledAppend | src/renderer/modules/ddev-shell.js:76-97 | once settled, later handler calls cannot change the outcome |
| Strings.IndexOf | socket.js:72-76 | `indexOf`: the first position where the pattern occurs, or -1 exactly when it occurs nowhere |
| Strings.ReplaceFirst | src/renderer/modules/ddev-shell.js:34 | `replace` with a string pattern leaves a text without the pattern unchanged; otherwise the text before the first occurrence is kept and the length changes by the difference of pattern and replacement |
| Strings.SplitOn | src/renderer/modules/ddev-shell.js:75 | `split` with a non-empty separator gives at least one part, and no part contains the separator |
| Strings.SplitJoin | src/renderer/modules/ddev-shell.js:75 | joining the parts of a split with the separator restores the text |
| Strings.SplitAtFirst | socket.js:75 | splitting at a character cuts off the text before its first occurrence |
| Strings.FirstPartBeforeSeparator | socket.js:75 | the first part of a split is a prefix of the text that lacks the separator and ends where the separator starts |
| Strings.SplitLast | js/site-creator.js:119 | the last part of a split on `/` is everything after the last `/` |
| Strings.CutAtFirst | js/site-creator.js:119 | a text holding a character splits as the part before its first occurrence followed by the split of the rest |
| Strings.ToLower | src/renderer/helpers.js:106 | `toLowerCase` keeps the length and maps every character to its lower-case form |
| Strings.ToLowerIdempotent | src/renderer/helpers.js:123 | lower-casing twice is lower-casing once |
| Strings.ConcatAppend | src/renderer/modules/ddev-shell.js:42-47 | appending chunks in two batches gives the same buffer as appending them all |
| Strings.ReplaceFirstChar | src/renderer/modules/ddev-shell.js:34 | `replace` with a one-character pattern replaces only its first occurrence |
| Strings.ReplaceAbsentChar | src/renderer/modules/ddev-shell.js:34 | `replace` leaves a text without the pattern unchanged |
| Strings.IndexOfAtStart | src/renderer/helpers.js:153 | a text that starts with the pattern finds it at position 0 |
| HostnameGrammar.RegexTestIffWellFormed | src/renderer/helpers.js:105 | the regular expression accepts a name iff the name is well-formed dot-separated labels of hyphen-joined runs |
| HostnameGrammar.RunConcat | src/renderer/helpers.js:105 | matching a concatenation is matching the second part from where the first left off |
| HostnameGrammar.RunsAccepted | src/renderer/helpers.js:105 | within one label, the automaton accepts iff every hyphen-separated run is non-empty and made of the allowed characters |
| HostnameGrammar.LaterLabelsAccepted | src/renderer/helpers.js:105 | after the first dot, the automaton accepts iff every dot-separated label is well formed |
| HostnameGrammar.ForeignCharRejected | src/renderer/helpers.js:105 | a character outside letters, digits, the two zero-width characters, `-` and `.` makes the name fail |
| HostnameGrammar.DoubledSeparatorRejected | src/renderer/helpers.js:105 | two separators in a row make the name fail |
| HostnameGrammar.LeadingSeparatorRejected | src/renderer/helpers.js:105 | a name starting with `-` or `.` fails |
| HostnameGrammar.TrailingSeparatorRejected | src/renderer/helpers.js:105 | a name ending with `-` or `.` fails |
| DdevShell.Argv | src/renderer/modules/ddev-shell.js:22-30 | the argument vector is the command (wrapped unless it is already a list) followed by `args` when it is a list |
| DdevShell.WorkingDirectory | src/renderer/modules/ddev-shell.js:32-36 | a working directory is set iff the path is non-empty, and it is the path with its first `~` expanded |
| DdevShell.ExpandHome | src/renderer/modules/ddev-shell.js:34 | a path without `~` is unchanged; a path with one grows by the home directory's length less the one `~` replaced (`DdevShell.ExpandFirstTilde` says which `~`) |
| DdevShell.ExpandFirstTilde | src/renderer/modules/ddev-shell.js:34 | only the first `~` is replaced by the home directory |
| DdevShell.ExpandNoTilde | src/renderer/modules/ddev-shell.js:34 | a path without `~` is used as it is |
| DdevShell.EchoedChunks | src/renderer/modules/ddev-shell.js:42-47 | in stream mode `callback` receives every chunk exactly once, in order, and `errorCallback` nothing |
| DdevShell.DeliveredAppend | src/renderer/modules/ddev-shell.js:42-65 | the calls made over two stretches of a run are the calls of each stretch, in order |
| DdevShell.StreamDeliveries | src/renderer/modules/ddev-shell.js:40-65 | stream mode: `callback` sees the chunks and then `Process Exited With Code 0` after a clean exit; otherwise `errorCallback` gets the whole buffer once |
| DdevShell.BatchDelivery | src/renderer/modules/ddev-shell.js:57-65 | batch mode: exactly one call with the whole buffer, to `callback` after a clean exit and to `errorCallback` otherwise |
| DdevShell.ShellProcess.constructor | src/renderer/modules/ddev-shell.js:19-40 | a new process has the argument vector and working directory above, an empty buffer and nothing delivered |
| DdevShell.ShellProcess.OnData | src/renderer/modules/ddev-shell.js:42-55 | a chunk is appended to the buffer and echoed to `callback` in stream mode |
| DdevShell.ShellProcess.OnExit | src/renderer/modules/ddev-shell.js:57-65 | the exit handler makes one call chosen by the exit code and mode |
| DdevShell.ShellProcess.Drive | src/renderer/modules/ddev-shell.js:40-65 | after all chunks and the exit, the buffer is their concatenation in arrival order and the calls made are exactly the run's transcript |
| DdevShell.StreamPromise | src/renderer/modules/ddev-shell.js:110-112 | a promise fed by a stream-mode run settles with the first chunk, or with how the process ended if it wrote nothing |
| DdevShell.BatchPromise | src/renderer/modules/ddev-shell.js:139-146 | a promise fed by a batch-mode run resolves with the whole output after a clean exit and rejects with it otherwise |
| DdevShell.CommandOutcome | src/renderer/modules/ddev-shell.js:74-99 | `list`, `describe` and `describeModal` reject with the whole output after any exit but 0. After a clean exit the promise stays pending iff every line handler leaves it pending, and otherwise holds the settlement of one of the lines |
| DdevShell.SettleLines | src/renderer/modules/ddev-shell.js:74-98 | the `forEach` over the output's lines settles the promise as the first line handler that settles it |
| DdevShell.ListLine | src/renderer/modules/ddev-shell.js:77-94 | an empty line, or a parsed line that is not `info`, leaves `list` pending. An unparseable line rejects with its text. An `info` line resolves with `raw` when it is a list, or with `[]` when `raw` is missing or falsy; any other `raw` rejects |
| DdevShell.ListSettledByFirstDecisiveLine | src/renderer/modules/ddev-shell.js:74-98 | `list` settles as the first line that is unparseable or `info`-level |
| DdevShell.ListIgnoresLaterLines | src/renderer/modules/ddev-shell.js:74-98 | lines after the settling one cannot change the outcome |
| DdevShell.ListFailedExit | src/renderer/modules/ddev-shell.js:99 | a failed `ddev list` rejects with its whole output |
| DdevShell.DescribeLine | src/renderer/modules/ddev-shell.js:198-215 | `describe` resolves with `raw` for an `info` line and rejects with an empty object for a line that does not parse to an object |
| DdevShell.ModalData | src/renderer/modules/ddev-shell.js:242-258 | the modal has `MySQL Credentials` iff `dbinfo` is present, and `Other Services` iff a MailHog or phpMyAdmin URL is present, with an entry only for each URL present |
| DdevShell.ModalLine | src/renderer/modules/ddev-shell.js:233-265 | `describeModal` resolves with the modal sections built from an `info` line's details |
| DdevShell.ModalFollowsDescribe | src/renderer/modules/ddev-shell.js:196-271 | `describeModal` settles on the same lines as `describe`, except that a missing `raw` makes it reject |
| DdevShell.RemoveArgs | src/renderer/modules/ddev-shell.js:139-141 | `remove` passes `-j`, then `--remove-data` only when data is to be removed, then the name |
| DdevShell.RemoveInvocation | src/renderer/modules/ddev-shell.js:139-146 | the full `remove` argument vector in both cases, run without a working directory |
| DdevShell.ConfigArgs | src/renderer/modules/ddev-shell.js:156-164 | `config` passes `-j --sitename <name> --docroot <docroot>` |
| DdevShell.HostnameCommand | src/renderer/modules/ddev-shell.js:178 | the prompt runs `ddev hostname `, then `<site>.<domain>`, then ` 127.0.0.1 -j` |
| DdevShell.LifecycleInvocation | src/renderer/modules/ddev-shell.js:110-132 | `start`, `stop` and `restart` run the bare subcommand in the project folder |
| DdevShell.HostnameCommandWords | src/renderer/modules/ddev-shell.js:172-178 | the hosts-file command is the five words `ddev hostname <site>.<domain> 127.0.0.1 -j` |
| DdevShell.SplitFiveWords | src/renderer/modules/ddev-shell.js:178 | five space-free words joined by spaces split back into those words |
| DdevShell.SudoGate | src/renderer/modules/ddev-shell.js:285-310 | escalation is requested iff the command is exactly `version`; anything else is refused with `ddev <command> is not allowed to be run as sudo` |
| DdevShell.SudoOutcome | src/renderer/modules/ddev-shell.js:279-311 | refused commands reject without a prompt; `version` resolves with the prompt's output or rejects with `Unable to escalate permissions.` |
| DdevShell.BannedCharacterRefused | src/renderer/modules/ddev-shell.js:285-296 | a command holding `;`, `\|` or `&` is refused by the allow-list, even though the banned-character loop blocks nothing |
| SocketList.DropWhitespace | socket.js:71 | dropping leading whitespace leaves a suffix that starts with a non-whitespace character |
| SocketList.CollapseLeavesNoRun | socket.js:71 | after the replacement no two whitespace characters are adjacent |
| SocketList.CollapseWithoutRun | socket.js:71 | text without a run of two whitespace characters is unchanged |
| SocketList.CollapseIdempotent | socket.js:71 | collapsing twice is collapsing once |
| SocketList.CollapseHead | socket.js:71 | collapsing keeps a non-whitespace first character and leaves a lone whitespace character at the start |
| SocketList.ReplaceNewlines | socket.js:71 | after the second replacement no `\n` remains |
| SocketList.Groups | socket.js:81-82 | fields are cut left to right into groups of five, of which only the last may be shorter |
| SocketList.GroupsFlatten | socket.js:81-82 | the groups, put back together, are the fields in order |
| SocketList.KeepRows | socket.js:84-89 | every row kept has five fields and a first field without `NAME` |
| SocketList.KeepRowsMembers | socket.js:84-89 | a group is kept iff it is a five-field row whose first field lacks `NAME` |
| SocketList.KeepRowsAppend | socket.js:84-89 | filtering keeps the groups' order |
| SocketList.RowCountBound | socket.js:77-90 | at most a fifth of the fields (rounded down) become rows |
| SocketList.SpliceRows | socket.js:79-82 | the `splice` loop produces exactly the groups of five |
| SocketList.FilterRows | socket.js:84-89 | the `for` loop keeps exactly the site rows, in order |
| SocketList.ParseListLines | socket.js:70-92 | a chunk with `DDEV ROUTER STATUS` gives the router status (whether it says `running`). Otherwise one with `sites found` gives its first word. Otherwise one whose normalised text has `NAME!~!TYPE` gives the site rows. Anything else gives nothing |
| SocketList.SitesCountIsFirstWord | socket.js:75 | the site count is the text before the chunk's first space |
| SocketList.ShortRowAbsorbsNextRow | socket.js:77-89 | a four-field table row takes the first field of the next row, so the table is misaligned from there on |
| SocketList.SpawnArgs | socket.js:21 | the helper's argument vector is `[cmd]`, or empty when no command is given |
| SocketList.SpawnCwd | socket.js:20-22 | the working directory defaults to `/` and has its first `~` expanded |
| Helpers.CheckHostname | src/renderer/helpers.js:103-114 | a name passes iff its lower-cased form is well formed; otherwise the empty name is reported as blank and any other as invalid |
| Helpers.BlankHostnameRejected | src/renderer/helpers.js:109 | the empty name is rejected with `Project Name Cannot Be Blank.` |
| Helpers.HostnameCaseInsensitive | src/renderer/helpers.js:106 | the project name's case does not matter |
| Helpers.ForeignCharacterInvalid | src/renderer/helpers.js:105-110 | a name holding `_`, `/`, a space or any other foreign character is rejected with `Project Name is Invalid.` |
| Helpers.DoubledSeparatorInvalid | src/renderer/helpers.js:105-110 | a name with two separators in a row is invalid |
| Helpers.EdgeSeparatorInvalid | src/renderer/helpers.js:105-110 | a name starting or ending with a separator is invalid |
| Helpers.CheckCMSType | src/renderer/helpers.js:121-138 | a type passes iff its lower-cased form is in the allowed set; otherwise the empty type is reported as unselected and any other as invalid |
| Helpers.CMSTypeCaseInsensitive | src/renderer/helpers.js:123-131 | the CMS type's case does not matter |
| Helpers.MapAccessError | src/renderer/helpers.js:152-156 | an error whose text contains `ENOENT` becomes the fixed message; any other error is passed on unchanged |
| Helpers.CheckAccess | src/renderer/helpers.js:147-157 | a resolved access check passes its output through; a rejected one passes on the mapped error |
| Helpers.InstallPathMissing | src/renderer/helpers.js:145-160 | a missing install folder is reported as `Cannot find or write to the selected directory.` |
| Helpers.DocrootPath | src/renderer/helpers.js:168-174 | the docroot checked is the project path, one `/`, then the docroot without its leading `/` |
| Helpers.DocrootLeadingSlash | src/renderer/helpers.js:170-172 | a leading `/` on the docroot makes no difference |
| Helpers.CheckIfExistingConfig | src/renderer/helpers.js:21-28 | the workflow goes on to configure iff the output reports an existing configuration and the user confirms |
| Provisioning.RunChain | src/renderer/components/CreateProject/index.js:187-224 | a `.then` chain starts a prefix of its steps, and every step but the last one started resolved. It completes iff every step ran and resolved; otherwise it stopped at the last step started, which rejected or never settled |
| Provisioning.NothingAfterFailure | src/renderer/components/CreateProject/index.js:187-224 | no step after one that fails or stalls is started |
| Provisioning.ReachedAfterSuccesses | src/renderer/components/CreateProject/index.js:187-224 | a step is started once all steps before it resolved |
| Provisioning.StepScreensFrom | src/renderer/components/CreateProject/index.js:186-205 | everything a chain shows comes from a step that was started |
| SiteCreator.SameHostnameGrammar | js/site-creator.js:10-21 | the site creator's hostname check accepts exactly the names the renderer's accepts |
| SiteCreator.NarrowerCMSTypes | js/site-creator.js:28-39 | the site creator accepts only types the renderer accepts, and rejects `drupal6` and `php` as invalid |
| SiteCreator.GetCMSPath | js/site-creator.js:55-71 | exactly `wordpress`, `drupal7` and `drupal8` map to a CMS. An unversioned result comes only from `wordpress`, and a Drupal version `n` (7 or 8) only from `drupal<n>`. Anything else throws `No CMS selected` |
| SiteCreator.CapitalisedTypeHasNoCMS | js/site-creator.js:28-71 | `WordPress` passes validation, which lower-cases, but the case-sensitive lookup throws |
| SiteCreator.ValidateInputs | js/site-creator.js:99-105 | validation passes iff hostname, type and `canReadAndWrite` all pass, and fails with the first of them that fails |
| SiteCreator.AddCMS | js/site-creator.js:171-199 | the chain always starts with validation, and a completed run went through all five steps, ending with the start |
| SiteCreator.CreateFiles | js/site-creator.js:114-128 | the lookup's error and the tarball search's rejection are passed on, and a search that never settles leaves the promise pending. A found tarball whose extraction finishes resolves with `<targetFolder>/<siteName>/<working folder>`. An extraction that does not finish leaves the promise pending, because the inner promise is not returned. Only that case resolves |
| SiteCreator.StripTarballSuffix | js/site-creator.js:119 | removing the first `.tar.gz` from `<base>.tar.gz` gives the base when it holds no `.t` |
| SiteCreator.DrupalWorkingFolder | js/site-creator.js:119-120 | for a non-WordPress type, the working folder is the tarball's file name without `.tar.gz` |
| SiteCreator.ValidationFailureStops | js/site-creator.js:171-198 | a failed validation shows the loading screen and then the error, and no other step runs |
| SiteCreator.LaterFailuresUnreported | js/site-creator.js:173-198 | once validation passed, no failure reaches the error screen, because the later promises are not returned into the chain |
| SiteCreator.StartFollowsConfigure | js/site-creator.js:179-186 | once `ddev config` resolves, the start step is reached, since nothing waits for the hosts-file update |
| SiteCreator.CapitalisedTypeFailsSilently | js/site-creator.js:171-198 | with type `WordPress`, the run stops at extraction without an error screen, leaving "Unzipping files" shown |
| CreateProject.ValidateNewProjectInputs | src/renderer/components/CreateProject/index.js:39-45 | new-project validation passes iff hostname, CMS type and install path pass, and fails with the first failure in that order |
| CreateProject.ValidateExistingFilesInputs | src/renderer/components/CreateProject/index.js:54-60 | existing-files validation passes iff hostname, install path and docroot pass, and fails with the first failure in that order |
| CreateProject.CMSToken | src/renderer/components/CreateProject/index.js:71-86 | `wordpress` looks for `wordpress` and `drupalN` for `drupal-N`; any other type leaves the token `undefined` |
| CreateProject.GetCMSTarballPath | src/renderer/components/CreateProject/index.js:68-101 | the lookup never settles when `getLocalDistros` does not resolve, and always settles when it does. A resolution is `<cmsPath>/<file>` for a listed file containing the token; a rejection is the archive-not-found error |
| CreateProject.TarballFirstMatch | src/renderer/components/CreateProject/index.js:87-92 | the archive chosen is `<cmsPath>/<file>` for the first listed file containing the token |
| CreateProject.TarballNotFound | src/renderer/components/CreateProject/index.js:87-97 | without a matching file the lookup rejects with the archive-not-found error |
| CreateProject.CMSPathUnderHome | src/renderer/components/CreateProject/index.js:183-185 | the archive folder is `<home>/.ddev/CMS` |
| CreateProject.ExtractCMSImage | src/renderer/components/CreateProject/index.js:156-174 | a rejected or pending archive lookup is passed on. Once the archive is found, a finished unpack resolves with `<targetFolder>/<siteName>`, a failed one rejects with its error, and an unfinished one stays pending. It resolves only in the first of these cases |
| CreateProject.AddCMS | src/renderer/components/CreateProject/index.js:182-225 | the chain always starts with validation |
| CreateProject.NewProjectCompletedRun | src/renderer/components/CreateProject/index.js:187-221 | a completed run went through four steps for `php` and five otherwise, ending with the start |
| CreateProject.AddCMSFromExisting | src/renderer/components/CreateProject/index.js:233-269 | the chain starts with validation, then the existing-configuration check, and a completed run ends with `ddev start` in the project folder |
| CreateProject.Screens | src/renderer/components/CreateProject/index.js:186-224 | a rejected step leaves its error screen as the last thing shown; a run that stopped adds at most that one screen to the loading texts |
| CreateProject.NewProjectValidationFailure | src/renderer/components/CreateProject/index.js:186-224 | a failed validation shows `Working...` and then the error, and nothing else runs |
| CreateProject.NewProjectExtraction | src/renderer/components/CreateProject/index.js:188-194 | `php` never extracts; any other type extracts right after validation |
| CreateProject.NewProjectFolder | src/renderer/components/CreateProject/index.js:188-207 | `ddev config` and `ddev start` always run in `<targetPath>/<name>` |
| CreateProject.NewProjectStopsAtFailure | src/renderer/components/CreateProject/index.js:187-224 | the first step that rejects is the last one started, and its error is the last thing shown |
| CreateProject.ExistingProjectConfigureGate | src/renderer/components/CreateProject/index.js:233-269 | `ddev config` runs only when an existing configuration was reported and confirmed; the hosts-file update and start follow either way |
| CreateProject.ChunkReactions | src/renderer/components/CreateProject/index.js:208-215 | the project page opens iff a chunk announces `Successfully started`; chunks never show the error screen |
| CreateProject.StartScreensAppend | src/renderer/components/CreateProject/index.js:206-220 | the reactions to two stretches of output are the reactions to each, in order |
| CreateProject.ExitedMessageHidesLoading | src/renderer/components/CreateProject/index.js:212-213 | the exit announcement counts as `Process Exited` and never as a successful start |
| CreateProject.StartOutcome | src/renderer/components/CreateProject/index.js:206-220 | the project page opens iff some chunk announces success. The last reaction hides the loading screen after a clean exit, and otherwise shows all the output as an error |
| CreateProject.ProfileUpdate | src/renderer/components/CreateProject/index.js:319-330 | afterwards the type is the requested one. The version changes to the requested one only when the type was already that one; a differing type replaces the type alone |
| CreateProject.ProfileUpdateSettles | src/renderer/components/CreateProject/index.js:319-330 | two identical updates leave the requested type and version |
| CreateProject.ProjectTypeValidates | src/renderer/components/CreateProject/index.js:400-410 | the project types built from the profiles pass validation, and for Drupal exactly when the version is `latest`, 6, 7 or 8 |
| CreateProject.DrupalVersionOfAccepted | src/renderer/components/CreateProject/index.js:402-404 | a Drupal type that passes validation carries version 6, 7 or 8 |
| CreateProject.RelativeDocrootInside | src/renderer/components/CreateProject/index.js:415-420 | a docroot chosen inside the project folder is stored relative to it |
| CreateProject.ProjectForm.constructor | src/renderer/components/CreateProject/index.js:272-286 | the form starts with the documented defaults |
| CreateProject.ProjectForm.HandleInstallProfileUpdate | src/renderer/components/CreateProject/index.js:319-330 | only the type or the version changes, as the update rule says; the rest of the form is unchanged |
| CreateProject.ProjectForm.HandleProjectCreation | src/renderer/components/CreateProject/index.js:362-428 | the arguments hold name, PHP version, web server and ports, plus `--xdebug-enabled` iff enabled. A new project gets `--projecttype` and an existing one the relative `--docroot`, and the matching workflow is chosen |
| UI.RouterStatusText | js/ui.js:41-55 | the label is empty iff there is a site and the first one reports the router `starting` or `healthy`, and otherwise the not-running message |
| UI.Cards | js/ui.js:46-51 | the container holds the add card and then one card per site, in list order |
| UI.Tick | js/ui.js:27-34 | a tick renders iff the list resolved and differs from the state, and then the state is that list; otherwise the state is kept |
| UI.FirstTickRenders | js/ui.js:27-31 | the first list, even an empty one, is rendered |
| UI.RepeatedListRendersOnce | js/ui.js:29 | any number of ticks listing the same sites render at most once, and leave that list as the state |
| UI.Poll | js/ui.js:27-34 | a run of ticks renders at most once per tick, and ends in a different state only if it rendered |
| UI.Dashboard.RenderUI | js/ui.js:40-56 | the cards and label are rebuilt from the list |
| UI.Dashboard.FetchState | js/ui.js:27-34 | one tick updates the state and re-renders exactly when `Tick` says so, and otherwise leaves the screen alone |

## Left out

- Process spawning, `fix-path`, `sudo-prompt` and the interleaving of stdout
  with stderr. A run is a given chunk sequence and exit code (`None` for a
  process ended by a signal).
- `JSON.parse`, `isJson` and `JSON.stringify`. Parsing is an oracle from a
  line to an optional parsed value, sorted into the kinds of `raw` the code
  treats differently. The poller's comparison of serialised lists is value
  equality over every member of each site. The members the client does not
  read are kept as one serialised string, `DdevShell.Site.others`. The
  initial `{}` is `UI.Unset`, which no list equals. Key order in the
  serialised form is not modelled.
- `canReadAndWrite`, `getLocalDistros`, `unpackCMSTarball`/`tarball.extractTarball`,
  the distribution updater's `getCMSTarballPath`, `ddev config` (through
  `configureSite` and `checkIfExistingConfig`), `ddev hostname` and
  `window.confirm`. These are oracle inputs. `unpackCMSTarball`'s own
  `readdir`/`mkdir` race is not modelled.
- `configureSite` and `checkIfExistingConfig` call `config` with a different
  signature from the one defined. Each side is modelled by its own contract,
  and the `ddev config` outcome is an input.
- Strings.ReplaceFirst: the replacement text is inserted literally. JavaScript's
  `replace` would interpret `$&`, `` $` ``, `$'` and `$$` in it, so
  `DdevShell.ExpandHome`, `DdevShell.ExpandFirstTilde`, `CreateProject.CMSPath`
  and `CreateProject.CMSPathUnderHome` do not hold for a home directory
  containing `$`.
- Strings.ToLower: only ASCII letters are lower-cased, so non-ASCII case
  mapping (for example the Kelvin sign) is not modelled.
- Common.FirstFailure: `Promise.all` reports the first rejection to happen.
  The model takes that to be the first in listing order. The synchronous
  validators reject before the file-system checks, and two file-system
  checks are assumed to finish in the order they were started.
- The banned-character loop in `sudo` (src/renderer/modules/ddev-shell.js:290-296)
  returns only from its callback and blocks nothing. It is not modelled as a
  check; `DdevShell.BannedCharacterRefused` shows the allow-list still
  refuses such commands.
- `list` rejects on the first non-empty line that does not parse
  (src/renderer/modules/ddev-shell.js:92-93), even when an `info` line
  follows. The model keeps that behaviour.
- `parseListLines` cuts all fields into fives, so a short table row shifts
  every later row (`SocketList.ShortRowAbsorbsNextRow`). Short rows are not
  simply dropped. It runs once per stdout chunk, not per line.
- socket.io/express event wiring, stdin forwarding, and the `start`/`stop`
  socket handlers.
- Timing: `setInterval`, `pause`, and overlapping poll ticks.
- DOM, jQuery, React and Electron work. This covers the loading/error
  overlays (modelled only as the sequence of screens requested), dialogs,
  `render`, `Alerts.jsx` and `ProjectHeader.jsx`. Also out are the form
  handlers `toggleTab`, `handleInputChange`, `handleInstallTypeUpdate`,
  `handlePathSetting` and `handleDocrootSetting`, and the site creator's
  `resetAddModal` and loading-text helpers.
- CreateProject.ProjectForm.HandleInstallProfileUpdate: when neither field
  differs, the source returns `{ prevState }`, which adds an unused
  `prevState` key to the component state. That key is not modelled. The
  default arguments are the current type and version, which the caller
  passes explicitly.
- `uintToString` and `test/remove-project-fixtures.js`.
- The site creator's `addCMS` does not return its inner promises. The model
  states which steps start, but it does not model the unhandled rejections
  themselves. Nothing waits for the hosts-file update, so its outcome has no
  effect and it is not an input.
- With an unknown CMS type, `getCMSTarballPath` in the renderer looks for
  files containing `undefined` (`CreateProject.CMSToken`). The workflow never
  reaches it with such a type, because validation rejects it first.
