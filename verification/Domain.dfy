/** The status vocabulary of the machine (coffee_platform/domain.py). */
module Domain {
  import opened Prelude

  datatype Process =
    | Ready | Product | Cleaning | Descaling | FilterInsert | FilterReplace | FilterRemove
    | SwitchOff | EasyClean | IntensiveClean | Evaporating | Busy

  datatype SubProcess = Grinding | Coffee | Steam | Water | Prepare

  datatype Manipulation =
    | NoManipulation | BuRemoved | TraysMissing | EmptyTrays | FillWater | CloseLid | FillPowder
    | MoveCupToFrother | FlushRequired

  datatype MachineStatus = MachineStatus(
    process: Option<Process>,
    subProcess: Option<SubProcess>,
    infoMessages: bv8,
    manipulation: Manipulation)

  const PREPARATION_CANCELLED: bv8 := 16

  predicate CancelBit(status: MachineStatus) {
    status.infoMessages & PREPARATION_CANCELLED != 0
  }

  /** The machine's cancel is the fourth bit of the status byte, counted from 0, whatever the others are. */
  lemma CancelIsFourthBit(status: MachineStatus)
    ensures CancelBit(status) <==> (status.infoMessages >> 4) & 1 == 1
  {
  }

  /** Every process code except the idle, brewing, transient and powering-down ones. */
  predicate IsMaintenance(process: Process) {
    process !in {Ready, Product, Busy, SwitchOff}
  }

  predicate IsPrompt(manipulation: Manipulation) {
    manipulation != NoManipulation
  }

  predicate IsSoftPrompt(manipulation: Manipulation) {
    manipulation in {MoveCupToFrother, FlushRequired}
  }
}
