/**
 * The values the engine receives from the scenario-simulation library: the
 * parsed model of one `.scesim` file, the runner's DTO that pairs it with the
 * file's path, and the Throwables that cross the engine's boundary. Everything
 * the engine only passes through (fact mappings, expected values, the DMN
 * reference in the settings) is kept as opaque text.
 */
module ScenarioModel {

  /** One scenario row: its description and its opaque input/expected data. */
  datatype Scenario = Scenario(description: string, factValues: seq<string>)

  /** A scenario together with the index the file declares for it. */
  datatype ScenarioWithIndex = ScenarioWithIndex(index: int, scesimData: Scenario)

  /** The simulation's settings; `engineType` selects the expression evaluator. */
  datatype Settings = Settings(engineType: string, dmnReference: string)

  /** What the XML reader yields for one file. */
  datatype ScenarioSimulationModel = ScenarioSimulationModel(
    settings: Settings,
    background: seq<Scenario>,
    scenarioWithIndices: seq<ScenarioWithIndex>)

  /** The runner DTO: the parsed model plus the path it was read from. */
  datatype ScenarioRunnerDTO = ScenarioRunnerDTO(model: ScenarioSimulationModel, fileName: string)

  /**
   * The Throwables the model distinguishes: the runner's own exception, the
   * one a failed `substring` raises, the test platform's failed precondition,
   * JUnit 4's rejected argument, and any other.
   */
  datatype Throwable =
    | ScenarioException(message: string)
    | StringIndexOutOfBoundsException(index: int)
    | PreconditionViolationException(message: string)
    | IllegalArgumentException(message: string)
    | OtherThrowable(description: string)
}
