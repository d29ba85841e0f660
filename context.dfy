/** The execution context of a session (matw-core, context.rs). Paths are strings. */
module Contexts {

  import opened Wrappers

  datatype GitInfo = GitInfo(branch: string, commit: string, root: string)

  class Context {
    var workingDir: string
    var gitInfo: Option<GitInfo>
    var environment: map<string, string>
    var claudeMd: Option<string>

    /** `Context::new`: no git info, an empty environment, no CLAUDE.md. */
    constructor (workingDir: string)
      ensures this.workingDir == workingDir && gitInfo == None && environment == map[] && claudeMd == None
    {
      this.workingDir := workingDir;
      gitInfo := None;
      environment := map[];
      claudeMd := None;
    }

    /** `Context::with_details`: the given git info and CLAUDE.md; the environment still starts empty. */
    constructor WithDetails(workingDir: string, gitInfo: Option<GitInfo>, claudeMd: Option<string>)
      ensures this.workingDir == workingDir && this.gitInfo == gitInfo && environment == map[] && this.claudeMd == claudeMd
    {
      this.workingDir := workingDir;
      this.gitInfo := gitInfo;
      environment := map[];
      this.claudeMd := claudeMd;
    }

    method SetGitInfo(info: GitInfo)
      modifies this
      ensures gitInfo == Some(info)
      ensures workingDir == old(workingDir) && environment == old(environment) && claudeMd == old(claudeMd)
    {
      gitInfo := Some(info);
    }

    /** `set_env`: inserts or overwrites one key; every other key keeps its value. */
    method SetEnv(key: string, value: string)
      modifies this
      ensures key in environment && environment[key] == value
      ensures environment.Keys == old(environment.Keys) + {key}
      ensures forall k :: k in old(environment) && k != key ==> environment[k] == old(environment)[k]
      ensures workingDir == old(workingDir) && gitInfo == old(gitInfo) && claudeMd == old(claudeMd)
    {
      environment := environment[key := value];
    }

    /** `set_environment`: replaces the whole map. */
    method SetEnvironment(env: map<string, string>)
      modifies this
      ensures environment == env
      ensures workingDir == old(workingDir) && gitInfo == old(gitInfo) && claudeMd == old(claudeMd)
    {
      environment := env;
    }

    method SetClaudeMd(content: string)
      modifies this
      ensures claudeMd == Some(content)
      ensures workingDir == old(workingDir) && gitInfo == old(gitInfo) && environment == old(environment)
    {
      claudeMd := Some(content);
    }
  }
}
