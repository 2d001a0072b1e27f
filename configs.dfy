/** The stored pedalboard configurations that the controller acts on:
    a `PedalboardConfig` names a processor and, for the drummer, lists the
    controls bound to the pedal buttons. */
module Configs {
  import opened Wrappers
  import opened MugresCore

  /** `DrummerConfig.Control.Command`. */
  datatype Command = Play | Hit | Finish | Stop | NoOp

  /** `DrummerConfig.Control.getGenerator()`: the two generators the
      controller can instantiate, and any other value, by name. */
  datatype GeneratorId = HalfTimeId | BlastBeatId | OtherGeneratorId(name: string)

  /** One control of a drummer configuration: the pedal button it is on,
      its title (possibly null), its command and the command's parameters. */
  datatype Control = Control(
    number: int,
    title: Option<string>,
    command: Command,
    generator: GeneratorId,
    tempo: int,
    timeSignature: TimeSignature,
    lengthInMeasures: int,
    switchMode: SwitchMode,
    hitOptions: seq<DrumKit>,
    hitVelocity: int)

  /** `PedalboardConfig.Processor`. */
  datatype ProcessorKind = DrummerProcessor | TransformerProcessor

  /** A stored pedalboard configuration. `processor` is None when the stored
      configuration names no processor. */
  datatype PedalboardConfig = PedalboardConfig(
    name: string,
    processor: Option<ProcessorKind>,
    controls: seq<Control>)
}
