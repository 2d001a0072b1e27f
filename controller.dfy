/** The pedalboard controller with its JavaFX widgets stripped out: the pitch
    table of the five pedal buttons, the build of a drummer configuration
    from the stored controls, the button labels, the dispatch of a button
    press to the processor, and the list of stored configurations. */
module Controller {
  import opened Wrappers
  import opened MugresCore
  import opened Configs
  import opened JavaText

  /** The exceptions the controller's operations let escape. */
  datatype ControllerError =
    | UnknownGenerator(generator: GeneratorId)   // a PLAY control names another generator
    | NoPitchForButton(number: int)              // a control's button has no pitch (null dereferenced)
    | NotImplemented                             // a processor other than the drummer
    | NumberFormat(digits: string)               // the digits of a button id are not an int
    | NothingSelected                            // delete with no configuration selected

  /** A failed build: the index of the control that aborted it, and why. */
  datatype BuildFailure = BuildFailure(at: nat, error: ControllerError)

  /** How long a pressed note is held before its note-off, in milliseconds. */
  const HoldMillis: int := 500

  // ---------------------------------------------------------------------------
  // The five pedal buttons and their pitches

  /** The five `mainButton` fields of the controller. */
  datatype MainButton = MainButton1 | MainButton2 | MainButton3 | MainButton4 | MainButton5

  /** The number a main button stands for. */
  function MainButtonNumber(b: MainButton): int {
    match b
    case MainButton1 => 1
    case MainButton2 => 2
    case MainButton3 => 3
    case MainButton4 => 4
    case MainButton5 => 5
  }

  /** `getMainButton(number)`: a button exactly for the numbers 1 to 5, and it
      is the one that stands for that number. */
  function GetMainButton(number: int): (r: Option<MainButton>)
    ensures r.Some? <==> 1 <= number <= 5
    ensures r.Some? ==> MainButtonNumber(r.value) == number
  {
    if number == 1 then Some(MainButton1)
    else if number == 2 then Some(MainButton2)
    else if number == 3 then Some(MainButton3)
    else if number == 4 then Some(MainButton4)
    else if number == 5 then Some(MainButton5)
    else None
  }

  /** The pitch table `setDrummerButtonPitches` fills in: exactly the buttons
      1 to 5, button k playing MIDI note 59 + k. */
  function DrummerPitches(): (pitches: map<int, Pitch>)
    ensures pitches.Keys == {1, 2, 3, 4, 5}
    ensures forall k :: k in pitches ==> pitches[k] == Pitch(59 + k)
  {
    map[1 := Pitch(60), 2 := Pitch(61), 3 := Pitch(62), 4 := Pitch(63), 5 := Pitch(64)]
  }

  // ---------------------------------------------------------------------------
  // Labels

  /** The names of the drum-kit pieces a HIT control offers. */
  function OptionNames(options: seq<DrumKit>): seq<string> {
    seq(|options|, i requires 0 <= i < |options| => options[i].name)
  }

  /** Whether a title counts as given: not null and not blank after `trim()`. */
  predicate HasTitle(c: Control) {
    c.title.Some? && !IsBlank(c.title.value)
  }

  /** The tooltip text `setButtonLabel` computes for a control. */
  function Label(c: Control): (text: Option<string>)
    ensures HasTitle(c) ==> text == c.title
    ensures c.command == Play ==> text == c.title
    ensures !HasTitle(c) && c.command == Hit ==>
              text == Some("Hit " + Join(OptionNames(c.hitOptions), " or "))
    ensures !HasTitle(c) && c.command == Finish ==> text == Some("Finish")
    ensures !HasTitle(c) && c.command == Stop ==> text == Some("Stop now!")
    ensures !HasTitle(c) && c.command == NoOp ==> text == Some("Does nothing")
  {
    var byCommand := match c.command
      case Play => c.title
      case Hit => Some("Hit " + Join(OptionNames(c.hitOptions), " or "))
      case Finish => Some("Finish")
      case Stop => Some("Stop now!")
      case NoOp => Some("Does nothing");
    if c.title.Some? && !IsBlank(c.title.value) then c.title else byCommand
  }

  /** Every label is a non-blank text, except that of a PLAY control without
      a title of its own. */
  lemma LabelIsNonBlank(c: Control)
    requires c.command != Play || HasTitle(c)
    ensures Label(c).Some? && !IsBlank(Label(c).value)
  {
    if !HasTitle(c) {
      var text := Label(c).value;
      assert text[0] != ' ' && !IsTrimmable(text[0]);
      BlankIffAllTrimmable(text);
    }
  }

  /** The tooltips after `setButtonLabel(c)`: the label goes on the control's
      main button, and nowhere when the control's number has no button. */
  function Labelled(tooltips: map<MainButton, Option<string>>, c: Control): map<MainButton, Option<string>> {
    match GetMainButton(c.number)
    case Some(b) => tooltips[b := Label(c)]
    case None => tooltips
  }

  /** The tooltips after labelling `controls` in order. */
  function LabelledAll(tooltips: map<MainButton, Option<string>>, controls: seq<Control>): map<MainButton, Option<string>>
    decreases |controls|
  {
    if controls == [] then tooltips
    else Labelled(LabelledAll(tooltips, controls[..|controls| - 1]), controls[|controls| - 1])
  }

  /** Starting from no tooltips, a button has a tooltip exactly when some
      control is on it; a control numbered outside 1 to 5 sets none. */
  lemma {:induction false} LabelledButtons(controls: seq<Control>, b: MainButton)
    ensures b in LabelledAll(map[], controls) <==>
              exists i :: 0 <= i < |controls| && controls[i].number == MainButtonNumber(b)
    decreases |controls|
  {
    if controls != [] {
      var init := controls[..|controls| - 1];
      LabelledButtons(init, b);
      assert forall i :: 0 <= i < |init| ==> init[i] == controls[i];
      assert GetMainButton(MainButtonNumber(b)) == Some(b);
    }
  }

  // ---------------------------------------------------------------------------
  // Building a drummer configuration

  predicate KnownGenerator(id: GeneratorId) {
    id.HalfTimeId? || id.BlastBeatId?
  }

  /** The generator a PLAY control's generator id instantiates. */
  function GeneratorFor(id: GeneratorId): (g: Option<Generator>)
    ensures g.Some? <==> KnownGenerator(id)
    ensures id == HalfTimeId ==> g == Some(HalfTime)
    ensures id == BlastBeatId ==> g == Some(BlastBeat)
  {
    match id
    case HalfTimeId => Some(HalfTime)
    case BlastBeatId => Some(BlastBeat)
    case OtherGeneratorId(_) => None
  }

  /** The action a control's command asks for. */
  function ActionOf(c: Control): Action {
    match c.command
    case Play => PlayAction(c.title, c.switchMode)
    case Hit => HitAction(c.hitOptions, c.hitVelocity)
    case Finish => FinishAction
    case Stop => StopAction
    case NoOp => NoOpAction
  }

  /** The groove a PLAY control registers: named after its title, with its own
      tempo, time signature and length. */
  function GrooveOf(c: Control, generator: Generator): Groove {
    Groove(c.title, c.tempo, c.timeSignature, c.lengthInMeasures, generator)
  }

  /** The grooves that the PLAY controls with a known generator register, in order. */
  function PlayGrooves(controls: seq<Control>): seq<Groove>
    decreases |controls|
  {
    if controls == [] then []
    else
      var c := controls[|controls| - 1];
      PlayGrooves(controls[..|controls| - 1]) +
        (if c.command == Play && KnownGenerator(c.generator) then [GrooveOf(c, GeneratorFor(c.generator).value)] else [])
  }

  /** A control the build accepts: its button has a pitch and, for PLAY, its
      generator is one the controller knows. */
  predicate Accepted(pitches: map<int, Pitch>, c: Control) {
    c.number in pitches && (c.command == Play ==> KnownGenerator(c.generator))
  }

  /** Why the build rejects a control: an unknown generator is thrown before
      the pitch lookup. */
  function Rejection(c: Control): ControllerError {
    if c.command == Play && !KnownGenerator(c.generator) then UnknownGenerator(c.generator)
    else NoPitchForButton(c.number)
  }

  /** `config.setAction(buttonPitches.get(number).getMidi(), action)`. */
  function SetAction(pitches: map<int, Pitch>, config: Configuration, number: int, action: Action): Result<Configuration, ControllerError> {
    if number in pitches then Success(config.(actions := config.actions + [Binding(pitches[number].midi, action)]))
    else Failure(NoPitchForButton(number))
  }

  /** One iteration of the build loop: the switch on the control's command. */
  function Apply(pitches: map<int, Pitch>, config: Configuration, c: Control): (r: Result<Configuration, ControllerError>)
    ensures r.Success? <==> Accepted(pitches, c)
    ensures r.Success? ==>
              && r.value.name == config.name
              && r.value.actions == config.actions + [Binding(pitches[c.number].midi, ActionOf(c))]
              && r.value.grooves == config.grooves +
                   (if c.command == Play then [GrooveOf(c, GeneratorFor(c.generator).value)] else [])
    ensures r.Failure? ==> r.error == Rejection(c)
  {
    match c.command
    case Play =>
      (match GeneratorFor(c.generator)
       case None => Failure(UnknownGenerator(c.generator))
       case Some(g) =>
         SetAction(pitches, config.(grooves := config.grooves + [GrooveOf(c, g)]), c.number, PlayAction(c.title, c.switchMode)))
    case Hit => SetAction(pitches, config, c.number, HitAction(c.hitOptions, c.hitVelocity))
    case Finish => SetAction(pitches, config, c.number, FinishAction)
    case Stop => SetAction(pitches, config, c.number, StopAction)
    case NoOp => SetAction(pitches, config, c.number, NoOpAction)
  }

  /** The drummer configuration that the drummer branch of `loadConfiguration`
      builds from `controls` with the pitch table `pitches`, or the failure
      that aborts it. The build succeeds exactly when every control is
      accepted; it then holds one action per control, in order, keyed by the
      MIDI number of the control's button, and the grooves of the PLAY
      controls. Otherwise it fails at the first control it rejects. */
  function Build(name: string, pitches: map<int, Pitch>, controls: seq<Control>): (r: Result<Configuration, BuildFailure>)
    ensures r.Success? <==> forall i :: 0 <= i < |controls| ==> Accepted(pitches, controls[i])
    ensures r.Success? ==>
              && r.value.name == name
              && |r.value.actions| == |controls|
              && (forall i :: 0 <= i < |controls| ==>
                    controls[i].number in pitches &&
                    r.value.actions[i] == Binding(pitches[controls[i].number].midi, ActionOf(controls[i])))
              && r.value.grooves == PlayGrooves(controls)
    ensures r.Failure? ==>
              && r.error.at < |controls|
              && (forall i :: 0 <= i < r.error.at ==> Accepted(pitches, controls[i]))
              && !Accepted(pitches, controls[r.error.at])
              && r.error.error == Rejection(controls[r.error.at])
    decreases |controls|
  {
    if controls == [] then Success(Configuration(name, [], []))
    else
      var init := controls[..|controls| - 1];
      assert forall i :: 0 <= i < |init| ==> init[i] == controls[i];
      match Build(name, pitches, init)
      case Failure(f) => Failure(f)
      case Success(config) =>
        match Apply(pitches, config, controls[|controls| - 1])
        case Failure(e) => Failure(BuildFailure(|controls| - 1, e))
        case Success(config') => Success(config')
  }

  /** Building one control more applies that control to the configuration
      built so far. */
  lemma BuildStep(name: string, pitches: map<int, Pitch>, controls: seq<Control>, i: int)
    requires 0 <= i < |controls|
    requires Build(name, pitches, controls[..i]).Success?
    requires Apply(pitches, Build(name, pitches, controls[..i]).value, controls[i]).Success?
    ensures Build(name, pitches, controls[..i + 1]) ==
              Success(Apply(pitches, Build(name, pitches, controls[..i]).value, controls[i]).value)
  {
    assert controls[..i + 1][..i] == controls[..i];
  }

  /** A build whose first i controls were accepted and whose control i is
      rejected fails at i. */
  lemma BuildFailsAt(name: string, pitches: map<int, Pitch>, controls: seq<Control>, i: int)
    requires 0 <= i < |controls|
    requires Build(name, pitches, controls[..i]).Success?
    requires !Accepted(pitches, controls[i])
    ensures Build(name, pitches, controls) == Failure(BuildFailure(i, Rejection(controls[i])))
  {
    var prefix := controls[..i];
    assert forall j :: 0 <= j < i ==> prefix[j] == controls[j];
    assert forall j :: 0 <= j < i ==> Accepted(pitches, controls[j]);
  }

  /** With the drummer's pitch table, a control is stored under MIDI note 59
      plus its button number, so every key lies in 60 to 64. */
  lemma DrummerBuildKeys(name: string, controls: seq<Control>, i: int)
    requires Build(name, DrummerPitches(), controls).Success?
    requires 0 <= i < |controls|
    ensures 1 <= controls[i].number <= 5
    ensures Build(name, DrummerPitches(), controls).value.actions[i].key == 59 + controls[i].number
  {
  }

  /** With the drummer's pitch table, a control whose number is outside 1 to 5
      aborts the build. */
  lemma DrummerBuildRejectsOutOfRange(name: string, controls: seq<Control>, i: int)
    requires 0 <= i < |controls|
    requires !(1 <= controls[i].number <= 5)
    ensures Build(name, DrummerPitches(), controls).Failure?
  {
    assert !Accepted(DrummerPitches(), controls[i]);
  }

  /** A PLAY control with an unknown generator aborts the build. */
  lemma UnknownGeneratorAbortsBuild(name: string, pitches: map<int, Pitch>, controls: seq<Control>, i: int)
    requires 0 <= i < |controls|
    requires controls[i].command == Play && !KnownGenerator(controls[i].generator)
    ensures Build(name, pitches, controls).Failure?
  {
    assert !Accepted(pitches, controls[i]);
  }

  lemma {:induction false} PlayGroovesContains(controls: seq<Control>, i: int)
    requires 0 <= i < |controls|
    requires controls[i].command == Play && KnownGenerator(controls[i].generator)
    ensures GrooveOf(controls[i], GeneratorFor(controls[i].generator).value) in PlayGrooves(controls)
    decreases |controls|
  {
    if i < |controls| - 1 {
      var init := controls[..|controls| - 1];
      assert init[i] == controls[i];
      PlayGroovesContains(init, i);
    }
  }

  /** In a successful build a PLAY control registers a groove named after its
      title, with its tempo, time signature and length, and its action plays
      that groove name with the control's switch mode. */
  lemma PlayControlRegistersGroove(name: string, pitches: map<int, Pitch>, controls: seq<Control>, i: int)
    requires Build(name, pitches, controls).Success?
    requires 0 <= i < |controls| && controls[i].command == Play
    ensures var config := Build(name, pitches, controls).value;
            && KnownGenerator(controls[i].generator)
            && Groove(controls[i].title, controls[i].tempo, controls[i].timeSignature,
                      controls[i].lengthInMeasures, GeneratorFor(controls[i].generator).value) in config.grooves
            && config.actions[i].action == PlayAction(controls[i].title, controls[i].switchMode)
  {
    assert Accepted(pitches, controls[i]);
    PlayGroovesContains(controls, i);
  }

  // ---------------------------------------------------------------------------
  // Button presses

  /** The number `onMainButton` reads from a button id: the id's digits and
      dots, through `Integer.valueOf`. */
  function ButtonNumberFromId(id: string): (r: Result<int, ControllerError>)
    ensures r.Success? ==> 0 <= r.value <= IntMax
    ensures (forall i :: 0 <= i < |id| ==> !IsKept(id[i])) ==> r == Failure(NumberFormat(""))
    ensures var digits := KeepDigitsAndDots(id);
            r.Success? <==>
              digits != [] && (forall i :: 0 <= i < |digits| ==> IsDigit(digits[i])) && DecimalValue(digits) <= IntMax
    ensures r.Success? ==> r.value == DecimalValue(KeepDigitsAndDots(id))
    ensures r.Failure? ==> r.error == NumberFormat(KeepDigitsAndDots(id))
  {
    var digits := KeepDigitsAndDots(id);
    match IntegerValueOf(digits)
    case Success(n) => Success(n)
    case Failure(s) => Failure(NumberFormat(s))
  }

  /** An id made of a prefix without digits or dots followed by one digit
      yields that digit, as the ids `mainButton1` to `mainButton5` do. */
  lemma ButtonNumberFromNumberedId(prefix: string, d: char)
    requires forall i :: 0 <= i < |prefix| ==> !IsKept(prefix[i])
    requires IsDigit(d)
    ensures ButtonNumberFromId(prefix + [d]) == Success(d as int - '0' as int)
  {
    KeptOfNumberedId(prefix, d);
    ValueOfOneDigit(d);
  }

  lemma KeptOfNumberedId(prefix: string, d: char)
    requires forall i :: 0 <= i < |prefix| ==> !IsKept(prefix[i])
    requires IsDigit(d)
    ensures KeepDigitsAndDots(prefix + [d]) == [d]
  {
    KeepDigitsAndDotsAppend(prefix, [d]);
    assert KeepDigitsAndDots(prefix) == [];
    assert [d][1..] == [];
  }

  lemma ValueOfOneDigit(d: char)
    requires IsDigit(d)
    ensures IntegerValueOf([d]) == Success(d as int - '0' as int)
  {
    assert [d][..0] == [];
    assert forall i :: 0 <= i < |[d]| ==> IsDigit([d][i]);
    assert DecimalValue([d]) == DecimalValue([]) * 10 + (d as int - '0' as int);
  }

  /** The two signals a press of button `number` sends: note-on at the first
      clock read, note-off `HoldMillis` after the second, on the same channel
      and with the same payload. */
  function PressSignals(pitches: map<int, Pitch>, number: int, channel: int, velocity: int, tOn: int, tOff: int): (signals: seq<Signal>)
    requires tOn <= tOff
    ensures |signals| == 2
    ensures signals[0].state == NoteOn && signals[1].state == NoteOff
    ensures signals[0].time == tOn && signals[1].time == tOff + HoldMillis
    ensures signals[0].time < signals[1].time
    ensures signals[0].channel == channel && signals[1].channel == channel
    ensures signals[0].played == signals[1].played
    ensures signals[0].played.velocity == velocity
    ensures signals[0].played.pitch == if number in pitches then Some(pitches[number]) else None
  {
    var played := Played(if number in pitches then Some(pitches[number]) else None, velocity);
    [Signal(NoteOn, tOn, channel, played), Signal(NoteOff, tOff + HoldMillis, channel, played)]
  }

  /** With the drummer's pitch table, pressing a button whose id ends in a
      digit k from 1 to 5 plays MIDI note 59 + k. */
  lemma PressPlaysButtonPitch(prefix: string, d: char, channel: int, velocity: int, tOn: int, tOff: int)
    requires forall i :: 0 <= i < |prefix| ==> !IsKept(prefix[i])
    requires '1' <= d <= '5'
    requires tOn <= tOff
    ensures ButtonNumberFromId(prefix + [d]).Success?
    ensures var n := ButtonNumberFromId(prefix + [d]).value;
            PressSignals(DrummerPitches(), n, channel, velocity, tOn, tOff)[0].played.pitch == Some(Pitch(59 + n))
  {
    ButtonNumberFromNumberedId(prefix, d);
  }

  // ---------------------------------------------------------------------------
  // The list of stored configurations

  /** Index of the first configuration named `name`, or `|configs|`. */
  function FirstNamedIndex(configs: seq<PedalboardConfig>, name: string): (k: nat)
    ensures k <= |configs|
    ensures forall j :: 0 <= j < k ==> configs[j].name != name
    ensures k < |configs| ==> configs[k].name == name
    decreases |configs|
  {
    if configs == [] then 0
    else if configs[0].name == name then 0
    else 1 + FirstNamedIndex(configs[1..], name)
  }

  /** `stream().filter(c -> c.getName().equals(name)).findFirst().orElse(null)`. */
  function FirstNamed(configs: seq<PedalboardConfig>, name: string): (r: Option<PedalboardConfig>)
    ensures r.None? <==> forall j :: 0 <= j < |configs| ==> configs[j].name != name
    ensures r.Some? ==> r.value in configs && r.value.name == name
    ensures r.Some? ==> exists k :: 0 <= k < |configs| && configs[k] == r.value &&
                          forall j :: 0 <= j < k ==> configs[j].name != name
  {
    var k := FirstNamedIndex(configs, name);
    if k < |configs| then Some(configs[k]) else None
  }

  /** `removeIf(c -> c.getName().equals(name))`. */
  function RemoveNamed(configs: seq<PedalboardConfig>, name: string): (r: seq<PedalboardConfig>)
    ensures |r| <= |configs|
    ensures forall c :: c in r <==> c in configs && c.name != name
    ensures (forall j :: 0 <= j < |configs| ==> configs[j].name != name) ==> r == configs
    decreases |configs|
  {
    if configs == [] then []
    else
      var rest := RemoveNamed(configs[1..], name);
      assert forall c :: c in configs <==> c == configs[0] || c in configs[1..];
      (if configs[0].name == name then [] else [configs[0]]) + rest
  }

  /** Removing by name keeps a single configuration exactly when its name differs. */
  lemma RemoveNamedSingleton(c: PedalboardConfig, name: string)
    ensures RemoveNamed([c], name) == if c.name == name then [] else [c]
  {
    assert [c][1..] == [];
  }

  /** Removing by name distributes over concatenation, so the kept
      configurations stay in their order and with their multiplicity. */
  lemma {:induction false} RemoveNamedAppend(s: seq<PedalboardConfig>, t: seq<PedalboardConfig>, name: string)
    ensures RemoveNamed(s + t, name) == RemoveNamed(s, name) + RemoveNamed(t, name)
    decreases |s|
  {
    if s != [] {
      var head := if s[0].name == name then [] else [s[0]];
      assert (s + t)[0] == s[0] && (s + t)[1..] == s[1..] + t;
      RemoveNamedAppend(s[1..], t, name);
      calc {
        RemoveNamed(s + t, name);
        head + RemoveNamed(s[1..] + t, name);
        head + (RemoveNamed(s[1..], name) + RemoveNamed(t, name));
        (head + RemoveNamed(s[1..], name)) + RemoveNamed(t, name);
      }
    } else {
      assert s + t == t;
    }
  }

  /** The configuration `loadConfigurations(selectedName)` loads: the only one
      when there is exactly one (whatever the name), else the first with the
      given name, else none. */
  function ConfigurationToLoad(configs: seq<PedalboardConfig>, selectedName: Option<string>): (r: Option<PedalboardConfig>)
    ensures |configs| == 1 ==> r == Some(configs[0])
    ensures |configs| != 1 && selectedName.None? ==> r == None
    ensures |configs| != 1 && selectedName.Some? ==>
              (r.None? <==> forall j :: 0 <= j < |configs| ==> configs[j].name != selectedName.value)
    ensures |configs| != 1 && r.Some? ==> r.value.name == selectedName.value
    ensures r.Some? ==> r.value in configs
    ensures |configs| != 1 && selectedName.Some? && r.Some? ==>
              exists k :: 0 <= k < |configs| && configs[k] == r.value &&
                forall j :: 0 <= j < k ==> configs[j].name != selectedName.value
  {
    if |configs| == 1 then Some(configs[0])
    else if selectedName.Some? then FirstNamed(configs, selectedName.value)
    else None
  }

  /** After an edit that keeps the configuration's name, reloading by that
      name loads exactly the edited configuration. */
  lemma {:induction false} UpdateLoadsEdited(configs: seq<PedalboardConfig>, output: PedalboardConfig)
    ensures ConfigurationToLoad(RemoveNamed(configs, output.name) + [output], Some(output.name)) == Some(output)
  {
    var rest := RemoveNamed(configs, output.name);
    var updated := rest + [output];
    assert forall j :: 0 <= j < |rest| ==> updated[j] == rest[j] && rest[j] in rest;
    assert forall j :: 0 <= j < |rest| ==> updated[j].name != output.name;
    assert updated[|rest|] == output;
    assert FirstNamedIndex(updated, output.name) == |rest|;
  }

  /** After a delete, no configuration of the deleted name is left to load. */
  lemma DeleteLeavesNoneNamed(configs: seq<PedalboardConfig>, name: string)
    ensures FirstNamed(RemoveNamed(configs, name), name).None?
  {
    var rest := RemoveNamed(configs, name);
    assert forall j :: 0 <= j < |rest| ==> rest[j] in rest;
  }

  // ---------------------------------------------------------------------------
  // The controller

  class PedalboardController {
    /** The processor button presses go to; null until a drummer configuration is loaded. */
    var processor: Drummer?
    var buttonPitches: map<int, Pitch>
    const midiChannel: int := 1
    const velocity: int := 100
    /** The text of each main button's tooltip; a button without an entry has none. */
    var tooltips: map<MainButton, Option<string>>
    /** The stored pedalboard configurations, in order. */
    var configurations: seq<PedalboardConfig>
    /** The configuration selected in the configurations combo, if any. */
    var selected: Option<PedalboardConfig>

    /** A processor is only ever installed together with the drummer's pitch table. */
    ghost predicate Valid()
      reads this
    {
      processor != null ==> buttonPitches == DrummerPitches()
    }

    constructor (configurations: seq<PedalboardConfig>)
      ensures Valid()
      ensures processor == null && buttonPitches == map[] && tooltips == map[]
      ensures this.configurations == configurations && selected == None
    {
      processor := null;
      buttonPitches := map[];
      tooltips := map[];
      this.configurations := configurations;
      selected := None;
    }

    /** `setDrummerButtonPitches`: clears the table and maps buttons 1 to 5. */
    method SetDrummerButtonPitches()
      modifies this`buttonPitches
      ensures buttonPitches == DrummerPitches()
    {
      buttonPitches := map[];
      buttonPitches := buttonPitches[1 := Pitch(60)];
      buttonPitches := buttonPitches[2 := Pitch(61)];
      buttonPitches := buttonPitches[3 := Pitch(62)];
      buttonPitches := buttonPitches[4 := Pitch(63)];
      buttonPitches := buttonPitches[5 := Pitch(64)];
    }

    /** `setButtonLabel(control)`. */
    method SetButtonLabel(c: Control)
      modifies this`tooltips
      ensures tooltips == Labelled(old(tooltips), c)
    {
      var text := Label(c);
      var button := GetMainButton(c.number);
      if button.Some? {
        tooltips := tooltips[button.value := text];
      }
    }

    /** The body of the build loop for one control: the switch on its
        command, with `config.createGroove` before `config.setAction` for PLAY. */
    method ApplyControl(config: Configuration, control: Control) returns (step: Result<Configuration, ControllerError>)
      ensures step == Apply(buttonPitches, config, control)
    {
      match control.command {
        case Play =>
          var generator: Option<Generator>;
          match control.generator {
            case HalfTimeId => generator := Some(HalfTime);
            case BlastBeatId => generator := Some(BlastBeat);
            case OtherGeneratorId(_) => generator := None;
          }
          if generator.None? {
            step := Failure(UnknownGenerator(control.generator));
          } else {
            var withGroove := config.(grooves := config.grooves + [Groove(control.title, control.tempo,
              control.timeSignature, control.lengthInMeasures, generator.value)]);
            step := SetAction(buttonPitches, withGroove, control.number, PlayAction(control.title, control.switchMode));
          }
        case Hit =>
          step := SetAction(buttonPitches, config, control.number, HitAction(control.hitOptions, control.hitVelocity));
        case Finish =>
          step := SetAction(buttonPitches, config, control.number, FinishAction);
        case Stop =>
          step := SetAction(buttonPitches, config, control.number, StopAction);
        case NoOp =>
          step := SetAction(buttonPitches, config, control.number, NoOpAction);
      }
    }

    /** The state `loadConfiguration(pc)` leaves: for the drummer, the pitch
        table is set and either the built configuration's processor is
        installed with every control labelled, or no processor is installed
        and the controls up to the failing one are labelled; for any other
        processor, no processor and no tooltips. */
    twostate predicate Loaded(pc: PedalboardConfig, new outcome: Outcome<ControllerError>)
      reads this, processor
    {
      if pc.processor != Some(DrummerProcessor) then
        && outcome == Fail(NotImplemented)
        && processor == null
        && tooltips == map[]
        && buttonPitches == old(buttonPitches)
      else
        && buttonPitches == DrummerPitches()
        && match Build(pc.name, DrummerPitches(), pc.controls)
           case Success(config) =>
             && outcome == Pass
             && processor != null && fresh(processor)
             && processor.configuration == config && processor.processed == []
             && tooltips == LabelledAll(map[], pc.controls)
           case Failure(f) =>
             && outcome == Fail(f.error)
             && processor == null
             && tooltips == LabelledAll(map[], pc.controls[..f.at + 1])
    }

    /** The drummer branch's loop over the controls: each control is
        labelled, then applied; the first rejected control ends the loop.
        The result is the build's, and the controls up to the last one
        visited are labelled. */
    method BuildDrummer(name: string, controls: seq<Control>) returns (r: Result<Configuration, BuildFailure>)
      requires tooltips == map[]
      modifies this`tooltips
      ensures r == Build(name, buttonPitches, controls)
      ensures r.Success? ==> tooltips == LabelledAll(map[], controls)
      ensures r.Failure? ==> r.error.at < |controls| && tooltips == LabelledAll(map[], controls[..r.error.at + 1])
    {
      var config := Configuration(name, [], []);
      for i := 0 to |controls|
        invariant Build(name, buttonPitches, controls[..i]) == Success(config)
        invariant tooltips == LabelledAll(map[], controls[..i])
      {
        var control := controls[i];
        assert controls[..i + 1][..i] == controls[..i];
        SetButtonLabel(control);
        assert tooltips == LabelledAll(map[], controls[..i + 1]);
        var step := ApplyControl(config, control);
        if step.Failure? {
          BuildFailsAt(name, buttonPitches, controls, i);
          r := Failure(BuildFailure(i, step.error));
          return;
        }
        BuildStep(name, buttonPitches, controls, i);
        config := step.value;
      }
      assert controls[..|controls|] == controls;
      r := Success(config);
    }

    /** `loadConfiguration(pc)`. */
    method LoadConfiguration(pc: PedalboardConfig) returns (outcome: Outcome<ControllerError>)
      modifies this`processor, this`buttonPitches, this`tooltips
      ensures Valid()
      ensures Loaded(pc, outcome)
    {
      processor := null;
      tooltips := map[];
      if pc.processor == Some(DrummerProcessor) {
        SetDrummerButtonPitches();
        var built := BuildDrummer(pc.name, pc.controls);
        if built.Failure? {
          outcome := Fail(built.error.error);
          return;
        }
        processor := new Drummer(built.value);
        outcome := Pass;
      } else {
        outcome := Fail(NotImplemented);
      }
    }

    /** The state `loadConfigurations(selectedName)` leaves: the selection
        rule applied to the current list, and the chosen configuration loaded
        (or no processor and no tooltips when none is chosen). */
    twostate predicate Reloaded(selectedName: Option<string>, new outcome: Outcome<ControllerError>)
      reads this, processor
    {
      && (|configurations| == 1 ==> selected == Some(configurations[0]))
      && (|configurations| != 1 && selectedName.Some? ==> selected == FirstNamed(configurations, selectedName.value))
      && (|configurations| != 1 && selectedName.None? ==> selected == old(selected))
      && match ConfigurationToLoad(configurations, selectedName)
         case None =>
           outcome == Pass && processor == null && tooltips == map[] && buttonPitches == old(buttonPitches)
         case Some(pc) =>
           Loaded(pc, outcome)
    }

    /** `loadConfigurations(selectedName)`. */
    method LoadConfigurations(selectedName: Option<string>) returns (outcome: Outcome<ControllerError>)
      modifies this`processor, this`buttonPitches, this`tooltips, this`selected
      ensures Valid()
      ensures Reloaded(selectedName, outcome)
    {
      tooltips := map[];
      processor := null;
      outcome := Pass;
      if |configurations| == 1 {
        var pc := configurations[0];
        assert ConfigurationToLoad(configurations, selectedName) == Some(pc);
        selected := Some(pc);
        outcome := LoadConfiguration(pc);
      } else if selectedName.Some? {
        var pc := FirstNamed(configurations, selectedName.value);
        assert ConfigurationToLoad(configurations, selectedName) == pc;
        selected := pc;
        if pc.Some? {
          outcome := LoadConfiguration(pc.value);
        }
      } else {
        assert ConfigurationToLoad(configurations, selectedName) == None;
      }
    }

    /** `onDrummerEditorCreate`: appends the new configuration and reloads by its name. */
    method OnDrummerEditorCreate(output: PedalboardConfig) returns (outcome: Outcome<ControllerError>)
      modifies this
      ensures configurations == old(configurations) + [output]
      ensures Valid()
      ensures Reloaded(Some(output.name), outcome)
    {
      configurations := configurations + [output];
      outcome := LoadConfigurations(Some(output.name));
    }

    /** `onDrummerEditorUpdate`: drops every configuration with the edited
        one's former name, appends the edited one and reloads by its name. */
    method OnDrummerEditorUpdate(formerName: string, output: PedalboardConfig) returns (outcome: Outcome<ControllerError>)
      modifies this
      ensures configurations == RemoveNamed(old(configurations), formerName) + [output]
      ensures Valid()
      ensures Reloaded(Some(output.name), outcome)
    {
      configurations := RemoveNamed(configurations, formerName) + [output];
      outcome := LoadConfigurations(Some(output.name));
    }

    /** `onDeleteConfiguration`: with no selection the name lookup throws;
        when the user answers no nothing happens; otherwise every
        configuration with the selected name is dropped and the list reloaded. */
    method OnDeleteConfiguration(answeredNo: bool) returns (outcome: Outcome<ControllerError>)
      modifies this
      ensures old(selected).None? ==> outcome == Fail(NothingSelected) && unchanged(this)
      ensures old(selected).Some? && answeredNo ==> outcome == Pass && unchanged(this)
      ensures old(selected).Some? && !answeredNo ==>
                && configurations == RemoveNamed(old(configurations), old(selected).value.name)
                && Valid()
                && Reloaded(None, outcome)
    {
      if selected.None? {
        outcome := Fail(NothingSelected);
        return;
      }
      if answeredNo {
        outcome := Pass;
        return;
      }
      configurations := RemoveNamed(configurations, selected.value.name);
      outcome := LoadConfigurations(None);
    }

    /** `onMainButton`: with no processor nothing is sent; otherwise the
        button's number is read from its id and the processor receives the
        note-on and then the note-off. `tOn` and `tOff` are the two clock reads. */
    method OnMainButton(buttonId: string, tOn: int, tOff: int) returns (outcome: Outcome<ControllerError>)
      requires Valid()
      requires tOn <= tOff
      modifies processor
      ensures processor == null ==> outcome == Pass
      ensures processor != null ==>
                match ButtonNumberFromId(buttonId)
                case Failure(e) =>
                  outcome == Fail(e) && processor.processed == old(processor.processed)
                case Success(n) =>
                  && outcome == Pass
                  && processor.processed == old(processor.processed) +
                       PressSignals(DrummerPitches(), n, midiChannel, velocity, tOn, tOff)
    {
      if processor == null {
        return Pass;
      }
      var number := ButtonNumberFromId(buttonId);
      if number.Failure? {
        return Fail(number.error);
      }
      var pitch := if number.value in buttonPitches then Some(buttonPitches[number.value]) else None;
      var played := Played(pitch, velocity);
      var on := Signal(NoteOn, tOn, midiChannel, played);
      var off := Signal(NoteOff, tOff + HoldMillis, midiChannel, played);
      processor.Process(on);
      processor.Process(off);
      outcome := Pass;
    }
  }
}
