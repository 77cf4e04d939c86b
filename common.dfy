/** Shared wrappers: an optional value (JavaScript's `undefined`), and the
    outcome of an operation that may throw, with the failures the core raises. */
module Common {

  datatype Option<+T> = None | Some(value: T)

  /** Every error the modelled code throws, one constructor per throw site. */
  datatype Failure =
    // Package constructor
    | OptionsMissing            // `options` is falsy
    | OptionsNotObject          // `options` is not a plain object
    | PackageNameMissing        // `packageName.replace` on an absent name
    // Package collaborators
    | LatestVersionUnavailable(name: string)  // the registry lookup rejected
    | InstallFailed             // the installer rejected
    | StoreDirUndefined         // resolving a cache path without a store directory
    // Command constructor and stages
    | ArgvMissing               // `argv` is falsy
    | ArgvNotArray              // `argv` is not an array
    | ArgvEmpty                 // `argv` has no element
    | NodeVersionTooLow         // the runtime is older than the lowest supported version
    | InitNotImplemented        // the base `init` hook
    | ExecNotImplemented        // the base `exec` hook
    // InitCommand
    | CommandOptionsUndefined   // reading `force` of an undefined options object
    | NoTemplates               // the template catalog is missing or empty
    | TemplateInfoUndefined     // destructuring the result of a failed template lookup

  datatype Result<+T> = Ok(value: T) | Err(error: Failure)
}
