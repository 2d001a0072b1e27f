# MUGRES pedalboard: drummer configuration build, button dispatch and registries

This project models, in Dafny, the logic of the MUGRES pedalboard that turns a
stored pedalboard configuration into something the live drummer can act on,
and proves properties of that model:

- **Controller** (`controller.dfy`, from `PedalboardController.java`): the
  pitch table of the five pedal buttons (buttons 1 to 5 play MIDI notes 60 to
  64); the drummer branch of `loadConfiguration`, which resets the processor,
  labels every control, turns each control's command into an action stored
  under the MIDI number of its button's pitch, registers a groove for every
  PLAY control and only then installs a drummer processor; the tooltip label
  of a control; `getMainButton`; `onMainButton`, which sends the processor a
  note-on and then a note-off 500 ms after the second clock read; and the
  selection, replacement and deletion of stored configurations by name.
- **Song** (`song.dfy`, from `Song.java`): a name-to-pattern registry whose
  `createPattern` fails on a name already taken and whose `getPattern` fails
  on an unknown name.
- **Transformer configuration** (`transformer_config.dfy`, from
  `TransformerConfig.java`): button and filter lists with getters and setters,
  `getButton(number)` as a find-first by number, and `Button.getPitch()`.

Supporting modules: `wrappers.dfy` (Option for null, Result and Outcome for
thrown exceptions), `mugres_core.dfy` (the mugres.core types the controller
uses, modelled at their interface: `Pitch`, `Groove`, `Action`,
`Configuration`, `Signal`, and the `Drummer` processor as a log of the
signals it is given), `configs.dfy` (the stored `PedalboardConfig` and
`DrummerConfig.Control` values) and `java_text.dfy` (`String.trim()`,
`Collectors.joining`, `replaceAll("[^\\d.]", "")` and `Integer.valueOf`,
written out).

Modelling decisions:

- Exceptions are results: a build failure is `BuildFailure(at, error)`, the
  index of the control that threw and why (`UnknownGenerator` for a PLAY
  control naming neither HALF_TIME nor BLAST_BEAT, `NoPitchForButton` for the
  null pitch that `buttonPitches.get(number)` returns outside 1 to 5).
- The external `Configuration` is a record of two kinds of call made on
  it: the `setAction` calls and the `createGroove` calls, each kind in its
  own call order (the interleaving of the two is not kept), so what the
  library does with a key set twice is left open.
- `PedalboardController.Valid()` is the controller's invariant: a
  processor is only present together with the drummer's pitch table. The
  constructor and every loader establish it, and `OnMainButton` relies on
  it to state the pitch of a press through `DrummerPitches()`.
- The spec function `Build` is defined control by control, and the loop of
  `LoadConfiguration` keeps `Build(controls[..i]) == Success(config)` as its
  invariant.
- The clock is two parameters `tOn <= tOff`, one per `currentTimeMillis()`
  read. JavaFX tooltips are a map from main button to label text; a button
  without an entry has no tooltip. The configurations combo's value is the
  field `selected`.
- A control's title may be null (`setButtonLabel` tests for null), so titles and
  labels are `Option<string>`.

## Model

| member | source | states |
|---|---|---|
| Controller.GetMainButton | src/main/java/mugres/pedalboard/controllers/PedalboardController.java:245-255 | a button is returned exactly for numbers 1 to 5, and it is the button standing for that number |
| Controller.DrummerPitches | src/main/java/mugres/pedalboard/controllers/PedalboardController.java:257-264 | the drummer's pitch table has exactly the keys 1 to 5, key k mapped to MIDI 59 + k |
| Controller.PedalboardController.SetDrummerButtonPitches | src/main/java/mugres/pedalboard/controllers/PedalboardController.java:257-264 | after the call the pitch table is exactly that table, whatever it held before; nothing else changes |
| Controller.Label | src/main/java/mugres/pedalboard/controllers/PedalboardController.java:216-238 | a non-blank title is the label; a PLAY control's label is always its title; without a title HIT gives "Hit " and the option names joined by " or ", FINISH "Finish", STOP "Stop now!", NOOP "Does nothing" |
| Controller.LabelIsNonBlank | src/main/java/mugres/pedalboard/controllers/PedalboardController.java:216-238 | every label is present and non-blank, except a PLAY control's whose title is missing or blank |
| Controller.PedalboardController.SetButtonLabel | src/main/java/mugres/pedalboard/controllers/PedalboardController.java:216-243 | the label goes on the main button of the control's number; a number without a button changes no tooltip |
| Controller.LabelledButtons | src/main/java/mugres/pedalboard/controllers/PedalboardController.java:240-242 | after labelling a list of controls from no tooltips, a button has a tooltip exactly when some control carries its number |
| Controller.GeneratorFor | src/main/java/mugres/pedalboard/controllers/PedalboardController.java:144-155 | a generator is instantiated exactly for HALF_TIME and BLAST_BEAT, and HALF_TIME gives the half-time generator, BLAST_BEAT the blast-beat one |
| Controller.Apply | src/main/java/mugres/pedalboard/controllers/PedalboardController.java:139-189 | one control is accepted exactly when its button has a pitch and, for PLAY, its generator is known; an accepted control appends one action keyed by the MIDI number of its pitch (and, for PLAY, one groove) and keeps the name; a rejected one yields its own error |
| Controller.PedalboardController.ApplyControl | src/main/java/mugres/pedalboard/controllers/PedalboardController.java:139-189 | the switch on the control's command, run against the controller's pitch table, gives the same step as `Apply` |
| Controller.PedalboardController.BuildDrummer | src/main/java/mugres/pedalboard/controllers/PedalboardController.java:139-189 | the loop over the controls yields exactly `Build` on the controller's pitch table, with every control labelled on success and the controls up to the failing one labelled on failure |
| Controller.Build | src/main/java/mugres/pedalboard/controllers/PedalboardController.java:136-189 | the build succeeds exactly when every control has a pitch and every PLAY control a known generator; then it holds one action per control, in order, keyed by the MIDI number of the control's pitch, and the PLAY controls' grooves; otherwise it fails at the first rejected control, an unknown generator taking precedence over a missing pitch |
| Controller.BuildStep | src/main/java/mugres/pedalboard/controllers/PedalboardController.java:139-189 | building one more control applies that control's command to the configuration built so far |
| Controller.BuildFailsAt | src/main/java/mugres/pedalboard/controllers/PedalboardController.java:139-189 | when the controls before index i are accepted and control i is not, the build fails at i with that control's error |
| Controller.DrummerBuildKeys | src/main/java/mugres/pedalboard/controllers/PedalboardController.java:165-187 | with the drummer's pitch table, every control of a successful build is on a button 1 to 5 and its action is stored under 59 plus that number |
| Controller.DrummerBuildRejectsOutOfRange | src/main/java/mugres/pedalboard/controllers/PedalboardController.java:165-187 | with the drummer's pitch table, a control numbered outside 1 to 5 makes the build fail |
| Controller.UnknownGeneratorAbortsBuild | src/main/java/mugres/pedalboard/controllers/PedalboardController.java:145-153 | a PLAY control with a generator other than HALF_TIME or BLAST_BEAT makes the build fail |
| Controller.PlayGroovesContains | src/main/java/mugres/pedalboard/controllers/PedalboardController.java:157-163 | every PLAY control with a known generator contributes its groove to the registered grooves |
| Controller.PlayControlRegistersGroove | src/main/java/mugres/pedalboard/controllers/PedalboardController.java:157-168 | in a successful build a PLAY control registers a groove named by its title with its tempo, time signature and length, and its action plays that name with its switch mode |
| Controller.PedalboardController.LoadConfiguration | src/main/java/mugres/pedalboard/controllers/PedalboardController.java:125-206 | for the drummer the pitch table is set; a successful build installs a fresh drummer holding the built configuration, with every control labelled; a failed build installs no processor, the controls up to the failing one being labelled; any other processor throws "Not implemented!" with no processor installed |
| Controller.ConfigurationToLoad | src/main/java/mugres/pedalboard/controllers/PedalboardController.java:110-122 | with exactly one configuration it is loaded whatever the name; otherwise a given name loads the first configuration in list order with that name, and none exactly when no configuration has it; with no name nothing is loaded |
| Controller.FirstNamedIndex | src/main/java/mugres/pedalboard/controllers/PedalboardController.java:115-118 | the index of the first configuration with the name: none before it has the name, and it has the name unless it is the list's end |
| Controller.FirstNamed | src/main/java/mugres/pedalboard/controllers/PedalboardController.java:115-118 | the result is absent exactly when no configuration has the name, and otherwise is the first configuration in list order with that name |
| Controller.PedalboardController.LoadConfigurations | src/main/java/mugres/pedalboard/controllers/PedalboardController.java:98-123 | the processor and tooltips are reset, the selection rule picks the configuration or none, and the one picked is loaded as LoadConfiguration states |
| Controller.RemoveNamed | src/main/java/mugres/pedalboard/controllers/PedalboardController.java:311 | the result holds a configuration exactly when the list does and its name differs, and is the list itself when none has the name |
| Controller.RemoveNamedSingleton | src/main/java/mugres/pedalboard/controllers/PedalboardController.java:311 | a one-element list loses its element exactly when the element has the name |
| Controller.RemoveNamedAppend | src/main/java/mugres/pedalboard/controllers/PedalboardController.java:311 | removing by name distributes over concatenation, so the kept configurations stay in their order and with their multiplicity |
| Controller.PedalboardController.OnDrummerEditorCreate | src/main/java/mugres/pedalboard/controllers/PedalboardController.java:342-352 | the new configuration is appended and the list reloaded by its name |
| Controller.PedalboardController.OnDrummerEditorUpdate | src/main/java/mugres/pedalboard/controllers/PedalboardController.java:355-365 | every configuration with the former name is removed, the edited one appended, and the list reloaded by its name |
| Controller.UpdateLoadsEdited | src/main/java/mugres/pedalboard/controllers/PedalboardController.java:360-364 | when an edit keeps the name, the reload after the update loads exactly the edited configuration |
| Controller.PedalboardController.OnDeleteConfiguration | src/main/java/mugres/pedalboard/controllers/PedalboardController.java:296-315 | with no selection it throws and changes nothing; answering no changes nothing; otherwise every configuration with the selected name is removed and the list reloaded with no name |
| Controller.DeleteLeavesNoneNamed | src/main/java/mugres/pedalboard/controllers/PedalboardController.java:311 | after a delete no configuration of that name is left to find |
| Controller.ButtonNumberFromId | src/main/java/mugres/pedalboard/controllers/PedalboardController.java:330-331 | the id's digits and dots parse exactly when they form a non-empty digit string whose value fits an int, and the number is that decimal value; otherwise the parse error carries the kept characters, the empty string for an id without digits or dots |
| Controller.ButtonNumberFromNumberedId | src/main/java/mugres/pedalboard/controllers/PedalboardController.java:330-331 | an id made of a prefix without digits or dots and one final digit yields that digit |
| Controller.PressSignals | src/main/java/mugres/pedalboard/controllers/PedalboardController.java:333-335 | a press yields exactly a note-on at the first clock read then a note-off 500 after the second, strictly later, on the same channel with the same pitch and velocity |
| Controller.PressPlaysButtonPitch | src/main/java/mugres/pedalboard/controllers/PedalboardController.java:330-335 | with the drummer's pitch table, a button id ending in a digit k from 1 to 5 plays MIDI note 59 + k |
| Controller.PedalboardController.OnMainButton | src/main/java/mugres/pedalboard/controllers/PedalboardController.java:324-339 | with no processor nothing is sent; a bad id throws and nothing is sent; otherwise the processor's log grows by exactly the two press signals, on then off, with the drummer's pitch for the button |
| JavaText.Trim | src/main/java/mugres/pedalboard/controllers/PedalboardController.java:237 | `trim()` returns a slice of the string that is empty or starts and ends with a character above space, with only characters at most space before and after it |
| JavaText.BlankIffAllTrimmable | src/main/java/mugres/pedalboard/controllers/PedalboardController.java:237 | a title is blank after `trim()` exactly when all its characters are at most space |
| JavaText.KeepDigitsAndDots | src/main/java/mugres/pedalboard/controllers/PedalboardController.java:330-331 | a character occurs in the result exactly when it occurs in the id and is a digit or a dot |
| JavaText.KeepDigitsAndDotsAppend | src/main/java/mugres/pedalboard/controllers/PedalboardController.java:330-331 | keeping digits and dots distributes over concatenation |
| JavaText.KeepDigitsAndDotsSingleton | src/main/java/mugres/pedalboard/controllers/PedalboardController.java:330-331 | a single character is kept exactly when it is a digit or a dot; with the append lemma this fixes the kept characters' order |
| JavaText.IntegerValueOf | src/main/java/mugres/pedalboard/controllers/PedalboardController.java:330 | on digits and dots, parsing succeeds exactly for a non-empty string of digits whose value fits in an int, and yields that value |
| MidiPedalboard.Song.CreatePattern | src/main/java/com/raltamirano/midipedalboard/model/Song.java:34-44 | a taken name fails with the map unchanged; otherwise the returned pattern carries the name, tempo and modes, is stored under the name, and every other entry is unchanged; patterns stay keyed by their own names |
| MidiPedalboard.Song.CreatePatternWithModes | src/main/java/com/raltamirano/midipedalboard/model/Song.java:26-31 | as CreatePattern with tempo 0 |
| MidiPedalboard.Song.CreatePatternNamed | src/main/java/com/raltamirano/midipedalboard/model/Song.java:21-24 | as CreatePattern with tempo 0 and both modes SEQUENCE |
| MidiPedalboard.Song.GetPattern | src/main/java/com/raltamirano/midipedalboard/model/Song.java:46-53 | the stored pattern when the name is present, and an "Unknown pattern" error exactly when it is absent |
| MidiPedalboard.CreateThenGet | src/main/java/com/raltamirano/midipedalboard/model/Song.java:37-52 | creating a pattern and getting it by name returns it, and a second creation under that name fails |
| Transformer.TransformerConfig.GetButton | src/main/java/mugres/pedalboard/config/TransformerConfig.java:20-22 | null exactly when no button has the number; otherwise a button with that number, the first in list order |
| Transformer.FirstNumberedIndex | src/main/java/mugres/pedalboard/config/TransformerConfig.java:21 | the index of the first button with the number, or the list's end |
| Transformer.TransformerConfig.SetButtons | src/main/java/mugres/pedalboard/config/TransformerConfig.java:12-18 | afterwards the getter returns the given list and the filters are unchanged |
| Transformer.TransformerConfig.SetFilters | src/main/java/mugres/pedalboard/config/TransformerConfig.java:24-30 | afterwards the getter returns the given list and the buttons are unchanged |
| Transformer.Button.SetNumber | src/main/java/mugres/pedalboard/config/TransformerConfig.java:37-43 | the getter then returns the number; the other fields are unchanged |
| Transformer.Button.SetMidi | src/main/java/mugres/pedalboard/config/TransformerConfig.java:45-51 | the getter then returns the MIDI number; the other fields are unchanged |
| Transformer.Button.SetLabel | src/main/java/mugres/pedalboard/config/TransformerConfig.java:53-59 | the getter then returns the label; the other fields are unchanged |
| Transformer.Button.GetPitch | src/main/java/mugres/pedalboard/config/TransformerConfig.java:61-63 | the pitch's MIDI number is the stored one |
| Transformer.Filter.SetFilter | src/main/java/mugres/pedalboard/config/TransformerConfig.java:74-76 | the getter then returns the filter name |

## Left out

- JavaFX work: layout, the tooltip widgets themselves (only their texts are kept), the combo's `StringConverter`, editor show/hide, enabling and disabling of the edit and delete buttons, and the `Alert` dialog, whose answer is the parameter `answeredNo`.
- `onConfigurationSelected`, `onNewConfiguration`, `onEditConfiguration` and `onDrummerEditorCancel`: UI handlers that only show editors or reload the selection.
- Persistence and global lookups: `MUGRESConfig.save()` and the application's input and output. The configuration list is the field `configurations`.
- Engine internals: the `Drummer`'s play, stop and finish state machine, `Processor.process` beyond recording its argument, MIDI transport, and the HalfTime and BlastBeat generators, which are tags.
- The playback contexts: both fields of a PLAY control's derived context are overridden, so a groove carries the resolved tempo and time signature; the base context's other contents are not modelled.
- What `Configuration.setAction` and `createGroove` do with a repeated key or groove name, since that is inside the library.
- The TRANSFORMER branch and a missing processor kind: each throws "Not implemented!", modelled as that error.
- `Filter.arguments`: an untyped map with no logic.
- Null arguments other than a control's title, a missing selection on delete and a missing pitch on a press (a null list, name or hit-option list).
- The Lombok-generated setters of `Song` (`setPatterns` and the others) and the library's `Pattern` class beyond its name, tempo and modes; a pattern is a value, so the model checks equality of contents rather than object identity.
- `TransformerConfig.SetButtons`, `SetFilters`: the lists are values, so sharing of one Java list between the caller and the configuration is not modelled.
- Real clock values: the two reads are inputs with the second at least the first.
