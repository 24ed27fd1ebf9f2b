/** The values the scaffolding tool works with: templates and their manifests,
    the answers collected from the user, and the externally visible actions
    that a run issues. */
module Domain {

  datatype Option<+T> = None | Some(value: T) {
    function GetOr(default: T): T {
      match this
      case Some(v) => v
      case None => default
    }
  }

  /** A typed prompt answer or option default (`boolean`, `number`, `string`). */
  datatype Value = VBool(b: bool) | VNum(n: int) | VStr(s: string)

  /** The `configOptions` object: keys in insertion order with their values. */
  type Config = seq<(string, Value)>

  /** One entry of a manifest's `options` object. `typeName` is the raw `type`
      field (absent when the manifest leaves it out). */
  datatype OptionSpec = OptionSpec(typeName: Option<string>, description: Option<string>, default: Option<Value>)

  /** The `options` object as `Object.entries` lists it. */
  type Schema = seq<(string, OptionSpec)>

  /** A parsed `config.json`: every field is optional. */
  datatype Manifest = Manifest(
    id: Option<string>,
    path: Option<string>,
    name: Option<string>,
    description: Option<string>,
    tags: Option<seq<string>>,
    options: Option<Schema>,
    templateDeps: Option<seq<string>>,
    postInstall: Option<seq<string>>,
    templateRepoLink: Option<string>)

  /** A catalog record: an `id` and a `path`, then the manifest's own fields. */
  datatype Template = Template(
    id: string,
    path: string,
    name: Option<string>,
    description: Option<string>,
    tags: Option<seq<string>>,
    options: Option<Schema>,
    templateDeps: Option<seq<string>>,
    postInstall: Option<seq<string>>,
    templateRepoLink: Option<string>)

  /** An entry returned by `readdir(..., { withFileTypes: true })`. */
  datatype DirEntry = DirEntry(name: string, isDirectory: bool)

  /** Which prompt function is called: `confirm`, `number`, `input` or `select`. */
  datatype PromptKind = Confirm | Number | Input | Select(choices: seq<string>)

  /** A prompt as issued: its kind, message, pre-filled default, and whether
      an empty answer is rejected by its validator. */
  datatype Prompt = Prompt(kind: PromptKind, message: string, default: Option<Value>, nonEmpty: bool)

  /** What a template's `index.js` default export turned out to be. */
  datatype Entry = ImportFails | NotCallable | Callable

  /** An externally visible step of a run, in the order it is issued. */
  datatype Action =
    | Asked(prompt: Prompt)
    | Warned(key: string)
    | Exec(command: string, cwd: string)
    | CopyPath(source: string, target: string)
    | MovePath(source: string, target: string)
    | RemovePath(path: string)
    | InvokeLogic(entry: string, projectDir: string, configOptions: Config)

  /** Why a call threw. */
  datatype Error =
    | ListingFailed(dir: string)        // `readdir` rejected
    | ManifestFailed(path: string)      // `readFileSync` or `JSON.parse` threw
    | NoTemplate                        // a property of an undefined template was read
    | MissingField(field: string)       // an absent manifest field was iterated or joined
    | ImportFailed(path: string)        // `import(logicPath)` rejected
    | Failed(action: Action)            // an external action failed

  datatype Result<+T> = Ok(value: T) | Err(error: Error)

  datatype Outcome = Pass | Fail(error: Error)

  /** The actions a step issues and how it ended. */
  datatype Run = Run(acts: seq<Action>, outcome: Outcome)
}
