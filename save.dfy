/** The global save record `CurrentSave` that the ability effects and the
    room interactions read and update. Its type declaration is not part of
    this model; the fields are those the code uses, grouped by what they
    record. */
module Saves {

  /** The four fight-room discoveries: HasSpookyBoard, HasSpookyBoardPointer,
      HasMedKit and HasSalt. */
  datatype Finds = Finds(spookyBoard: bool, spookyBoardPointer: bool, medKit: bool, salt: bool)

  /** BandageCount and DrinkCount. */
  datatype Supplies = Supplies(bandageCount: int, drinkCount: int)

  /** One flag per safe key: Has*Key for the keys held, *KeyInSafe for the
      keys put into the safe. */
  datatype KeySet = KeySet(nanite: bool, desk: bool, hood: bool, space: bool)

  /** MarsChecks and NaniteBoxChecks: how often each was inspected. */
  datatype Checks = Checks(mars: int, naniteBox: int)

  datatype SaveData = SaveData(
    found: Finds,
    supplies: Supplies,
    keysHeld: KeySet,
    keysInSafe: KeySet,
    keyCount: int,
    isSafeOpen: bool,
    recruitedMe: bool,
    checks: Checks,
    hasPPE: bool)

  const NoKeys: KeySet := KeySet(false, false, false, false)

  /** A fresh save: every flag false and every counter zero. */
  const NewSave: SaveData := SaveData(
    Finds(false, false, false, false), Supplies(0, 0), NoKeys, NoKeys, 0, false, false, Checks(0, 0), false)
}
