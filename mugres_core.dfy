/** The parts of the mugres.core library that the pedalboard uses, modelled
    at their interface only: pitches, drum-kit pieces, grooves, actions, the
    drummer's configuration and the signals a processor receives. The
    library's own classes are not part of this model. */
module MugresCore {
  import opened Wrappers

  /** A MIDI pitch, identified by its MIDI note number (`Pitch.of(midi)`,
      `getMidi()`). */
  datatype Pitch = Pitch(midi: int)

  /** A time signature, carried through unchanged. */
  datatype TimeSignature = TimeSignature(beatsPerMeasure: int, beatUnit: int)

  /** A drum-kit piece; only its name is used here. */
  datatype DrumKit = DrumKit(name: string)

  /** How a Play action switches from the groove that is playing; an opaque tag. */
  datatype SwitchMode = SwitchMode(tag: string)

  /** The two generator functions the pedalboard knows how to instantiate. */
  datatype Generator = HalfTime | BlastBeat

  /** A groove registered with `Configuration.createGroove`: its name, the
      tempo and time signature of its own context, its length in measures
      and its generator. */
  datatype Groove = Groove(
    name: Option<string>,
    tempo: int,
    timeSignature: TimeSignature,
    lengthInMeasures: int,
    generator: Generator)

  /** The drummer's commands, with the parameters the pedalboard passes them. */
  datatype Action =
    | PlayAction(pattern: Option<string>, switchMode: SwitchMode)
    | HitAction(options: seq<DrumKit>, velocity: int)
    | FinishAction
    | StopAction
    | NoOpAction

  /** One `Configuration.setAction(key, action)` call. */
  datatype Binding = Binding(key: int, action: Action)

  /** A drummer configuration, recorded as two sequences: the `setAction`
      calls made on it and the `createGroove` calls made on it, each in call
      order (the order between the two kinds of call is not kept). What the library's
      table does with a key or a groove name given twice is not modelled. */
  datatype Configuration = Configuration(
    name: string,
    actions: seq<Binding>,
    grooves: seq<Groove>)

  /** The payload of a note signal: a pitch (absent when the pedalboard looked
      up a button it has no pitch for) and a velocity. */
  datatype Played = Played(pitch: Option<Pitch>, velocity: int)

  datatype NoteState = NoteOn | NoteOff

  /** A timestamped note-on or note-off on a MIDI channel. */
  datatype Signal = Signal(state: NoteState, time: int, channel: int, played: Played)

  /** The drummer processor: it is built from a configuration and keeps, as
      its observable state, the signals handed to `process`, in order. */
  class Drummer {
    const configuration: Configuration
    var processed: seq<Signal>

    constructor (configuration: Configuration)
      ensures this.configuration == configuration
      ensures processed == []
    {
      this.configuration := configuration;
      processed := [];
    }

    /** `Processor.process(signal)`. */
    method Process(signal: Signal)
      modifies this
      ensures processed == old(processed) + [signal]
    {
      processed := processed + [signal];
    }
  }
}
