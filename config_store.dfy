/**
 * The feeding schedule and its copy in the flash file `/config.txt`.
 *
 * The file is seen as the JSON reader sees it: either nothing usable at all
 * (missing, empty or not parseable), or an object in which each of the four
 * keys is present with a value of the expected type, or is not.
 */
module ConfigStore {
  import opened Wrappers

  /** A C++ `int` on the ESP32: 32-bit signed. */
  type Int32 = x: int | -0x8000_0000 <= x < 0x8000_0000

  /** The schedule kept in RAM: portion units per feeding and three times of day. */
  datatype Config = Config(qtdPorcPadrao: Int32, hrPorc1: string, hrPorc2: string, hrPorc3: string)

  /** One parsed JSON object; `None` is a key that is absent or holds a value of another type. */
  datatype Record = Record(
    qtdPorcPadrao: Option<Int32>,
    hrPorc1: Option<string>,
    hrPorc2: Option<string>,
    hrPorc3: Option<string>)

  /** How opening and serialising the file went when the schedule was saved. */
  datatype WriteOutcome = OpenFailed | WriteFailed | Written

  const DefaultPortions: Int32 := 2
  const DefaultHr1: string := "08:00:00"
  const DefaultHr2: string := "14:00:00"
  const DefaultHr3: string := "20:00:00"

  function Defaults(): Config {
    Config(DefaultPortions, DefaultHr1, DefaultHr2, DefaultHr3)
  }

  /** The record the save step serialises: all four fields of the schedule. */
  function Encode(c: Config): Record {
    Record(Some(c.qtdPorcPadrao), Some(c.hrPorc1), Some(c.hrPorc2), Some(c.hrPorc3))
  }

  /** The schedule read back from the file: each field, or its own default. */
  function Load(file: Option<Record>): Config {
    var r := file.GetOr(Record(None, None, None, None));
    Config(
      r.qtdPorcPadrao.GetOr(DefaultPortions),
      r.hrPorc1.GetOr(DefaultHr1),
      r.hrPorc2.GetOr(DefaultHr2),
      r.hrPorc3.GetOr(DefaultHr3))
  }

  /**
   * The file after the save step: the old file is removed first, so a failed
   * open leaves no file; a serialisation that writes nothing leaves an empty
   * file, which the reader cannot parse.
   */
  function Persist(c: Config, outcome: WriteOutcome): Option<Record> {
    if outcome == Written then Some(Encode(c)) else None
  }

  /** A file that is missing or unreadable, or holds none of the keys, loads as the defaults. */
  lemma LoadNothing()
    ensures Load(None) == Defaults()
    ensures Load(Some(Record(None, None, None, None))) == Defaults()
  {
  }

  /**
   * Saving then loading gives back exactly the schedule that was saved; in
   * particular the record written determines the schedule.
   */
  lemma LoadEncode(c: Config)
    ensures Load(Some(Encode(c))) == c
  {
  }

  /**
   * Each loaded field depends on its own key only: two records that agree on
   * a key load to the same value for that field, whatever the other keys hold.
   */
  lemma LoadFieldwise(r: Record, s: Record)
    ensures r.qtdPorcPadrao == s.qtdPorcPadrao ==> Load(Some(r)).qtdPorcPadrao == Load(Some(s)).qtdPorcPadrao
    ensures r.hrPorc1 == s.hrPorc1 ==> Load(Some(r)).hrPorc1 == Load(Some(s)).hrPorc1
    ensures r.hrPorc2 == s.hrPorc2 ==> Load(Some(r)).hrPorc2 == Load(Some(s)).hrPorc2
    ensures r.hrPorc3 == s.hrPorc3 ==> Load(Some(r)).hrPorc3 == Load(Some(s)).hrPorc3
  {
  }

  /** A key that is missing from the file is replaced by that field's default, and only that one. */
  lemma LoadSubstitutesDefault(r: Record)
    ensures r.qtdPorcPadrao.None? ==> Load(Some(r)).qtdPorcPadrao == 2
    ensures r.hrPorc1.None? ==> Load(Some(r)).hrPorc1 == "08:00:00"
    ensures r.hrPorc2.None? ==> Load(Some(r)).hrPorc2 == "14:00:00"
    ensures r.hrPorc3.None? ==> Load(Some(r)).hrPorc3 == "20:00:00"
    ensures r.qtdPorcPadrao.Some? ==> Load(Some(r)).qtdPorcPadrao == r.qtdPorcPadrao.value
    ensures r.hrPorc1.Some? ==> Load(Some(r)).hrPorc1 == r.hrPorc1.value
    ensures r.hrPorc2.Some? ==> Load(Some(r)).hrPorc2 == r.hrPorc2.value
    ensures r.hrPorc3.Some? ==> Load(Some(r)).hrPorc3 == r.hrPorc3.value
  {
  }

  /**
   * Save followed by load: the saved schedule comes back when the file was
   * written, and the defaults come back when it was not, since the old file
   * had already been removed.
   */
  lemma SaveThenLoad(c: Config, outcome: WriteOutcome)
    ensures outcome == Written ==> Load(Persist(c, outcome)) == c
    ensures outcome != Written ==> Load(Persist(c, outcome)) == Defaults()
  {
    if outcome == Written {
      LoadEncode(c);
    }
  }
}
