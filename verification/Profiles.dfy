/** The parts of a profile that the runtime and the provider read. */
module Profiles {
  datatype Profile = Profile(
    name: string, agentName: string, identityPrompt: string,
    providerName: string, model: string, temperature: int,
    tools: seq<string>, maxIterations: int, maxHistoryTurns: int)
}
