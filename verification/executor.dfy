/** `ProgramExecutorRepoImpl` (atcoder_helper/program_executor.py): an
    executor fixed to one build command and one run command. The processes
    it spawns are a `Machine`: total functions from the command line (and
    stdin) to what the process reports. */
module ProgramExecution {
  import opened TestCaseEntity
  import opened Classifier
  import opened RunJournal

  datatype Machine = Machine(
    buildExit: seq<string> -> int,
    run: (seq<string>, string) -> RunOutcome)

  class Executor {
    const buildCommand: seq<string>
    const runCommand: seq<string>
    const machine: Machine
    const journal: Journal

    /** `ProgramExecutorRepoImpl.__init__` (and the builders that call it). */
    constructor (buildCommand: seq<string>, runCommand: seq<string>, machine: Machine, journal: Journal)
      ensures this.buildCommand == buildCommand && this.runCommand == runCommand
      ensures this.machine == machine && this.journal == journal
    {
      this.buildCommand := buildCommand;
      this.runCommand := runCommand;
      this.machine := machine;
      this.journal := journal;
    }

    /** `build`: runs the build command; true iff it exited with 0. */
    method Build() returns (ok: bool)
      modifies journal
      ensures ok <==> machine.buildExit(buildCommand) == 0
      ensures journal.events == old(journal.events) + [BuildCalled(buildCommand)]
    {
      journal.Record(BuildCalled(buildCommand));
      ok := machine.buildExit(buildCommand) == 0;
    }

    /** `execute`: runs the run command on the case's input and classifies
        the outcome with the rstrip comparison. */
    method Execute(tc: TestCase) returns (r: TestResult)
      modifies journal
      ensures r == Classify(tc, machine.run(runCommand, tc.given))
      ensures journal.events == old(journal.events) + [ExecuteCalled(runCommand, tc)]
    {
      journal.Record(ExecuteCalled(runCommand, tc));
      r := Classify(tc, machine.run(runCommand, tc.given));
    }
  }

  /** `ControllerBuilderImpl.build` / `get_default_program_executor`: a new
      executor for exactly the given build and run commands. */
  method NewExecutor(buildCommand: seq<string>, runCommand: seq<string>, machine: Machine, journal: Journal)
    returns (e: Executor)
    modifies journal
    ensures fresh(e)
    ensures e.buildCommand == buildCommand && e.runCommand == runCommand
    ensures e.machine == machine && e.journal == journal
    ensures journal.events == old(journal.events) + [ExecutorBuilt(buildCommand, runCommand)]
  {
    journal.Record(ExecutorBuilt(buildCommand, runCommand));
    e := new Executor(buildCommand, runCommand, machine, journal);
  }
}
