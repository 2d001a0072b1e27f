/** The song model of the MIDI pedalboard: a title, a tempo and a registry
    of patterns keyed by their names. */
module MidiPedalboard {
  import opened Wrappers

  /** `Pattern.Mode`: `SEQUENCE`, or another constant by name. */
  datatype Mode = Sequence | OtherMode(name: string)

  /** A pattern as the song creates it: name, tempo and the modes of its
      grooves and of its fills. */
  datatype Pattern = Pattern(name: string, tempo: int, groovesMode: Mode, fillsMode: Mode)

  /** The exceptions the song throws. */
  datatype SongError = PatternAlreadyCreated(name: string) | UnknownPattern(name: string)

  /** Every pattern is registered under its own name. */
  ghost predicate KeyedByName(patterns: map<string, Pattern>) {
    forall name :: name in patterns ==> patterns[name].name == name
  }

  class Song {
    var title: string
    var tempo: int
    var patterns: map<string, Pattern>

    constructor (title: string, tempo: int)
      ensures this.title == title && this.tempo == tempo && patterns == map[]
    {
      this.title := title;
      this.tempo := tempo;
      patterns := map[];
    }

    /** `createPattern(name, tempo, groovesMode, fillsMode)`: fails, changing
        nothing, when the name is taken; otherwise registers and returns a new
        pattern under that name, leaving every other entry as it was. */
    method CreatePattern(name: string, tempo: int, groovesMode: Mode, fillsMode: Mode)
      returns (r: Result<Pattern, SongError>)
      modifies this`patterns
      ensures name in old(patterns) ==> r == Failure(PatternAlreadyCreated(name)) && patterns == old(patterns)
      ensures name !in old(patterns) ==>
                && r == Success(Pattern(name, tempo, groovesMode, fillsMode))
                && patterns == old(patterns)[name := r.value]
      ensures KeyedByName(old(patterns)) ==> KeyedByName(patterns)
    {
      if name in patterns {
        return Failure(PatternAlreadyCreated(name));
      }
      var pattern := Pattern(name, tempo, groovesMode, fillsMode);
      patterns := patterns[name := pattern];
      r := Success(pattern);
    }

    /** `createPattern(name, groovesMode, fillsMode)`: tempo 0. */
    method CreatePatternWithModes(name: string, groovesMode: Mode, fillsMode: Mode)
      returns (r: Result<Pattern, SongError>)
      modifies this`patterns
      ensures name in old(patterns) ==> r == Failure(PatternAlreadyCreated(name)) && patterns == old(patterns)
      ensures name !in old(patterns) ==>
                && r == Success(Pattern(name, 0, groovesMode, fillsMode))
                && patterns == old(patterns)[name := r.value]
    {
      r := CreatePattern(name, 0, groovesMode, fillsMode);
    }

    /** `createPattern(name)`: tempo 0, both modes `SEQUENCE`. */
    method CreatePatternNamed(name: string) returns (r: Result<Pattern, SongError>)
      modifies this`patterns
      ensures name in old(patterns) ==> r == Failure(PatternAlreadyCreated(name)) && patterns == old(patterns)
      ensures name !in old(patterns) ==>
                && r == Success(Pattern(name, 0, Sequence, Sequence))
                && patterns == old(patterns)[name := r.value]
    {
      r := CreatePattern(name, 0, Sequence, Sequence);
    }

    /** `getPattern(name)`: the registered pattern, or an error exactly when
        the name is not registered. */
    function GetPattern(name: string): (r: Result<Pattern, SongError>)
      reads this
      ensures r.Success? <==> name in patterns
      ensures r.Success? ==> r.value == patterns[name]
      ensures r.Failure? ==> r.error == UnknownPattern(name)
    {
      if name in patterns then Success(patterns[name]) else Failure(UnknownPattern(name))
    }
  }

  /** Creating a pattern and then getting it by the same name returns it,
      and a second creation under that name fails. */
  method CreateThenGet(song: Song, name: string, tempo: int, groovesMode: Mode, fillsMode: Mode)
    returns (created: Result<Pattern, SongError>, again: Result<Pattern, SongError>, got: Result<Pattern, SongError>)
    requires name !in song.patterns
    modifies song
    ensures created == Success(Pattern(name, tempo, groovesMode, fillsMode))
    ensures again == Failure(PatternAlreadyCreated(name))
    ensures got == created
  {
    created := song.CreatePattern(name, tempo, groovesMode, fillsMode);
    again := song.CreatePatternNamed(name);
    got := song.GetPattern(name);
  }
}
