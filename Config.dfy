/** The settings of one run, fixed once the command line has been read. */
module Configuration {
  datatype Config = Config(
    instanceName: string,
    databaseName: string,
    outputDirectory: string,
    maxParallel: int,
    singleThread: bool,
    replaceExistingFiles: bool,
    skipErrors: bool,
    extendedProperties: bool,
    withDependencies: bool)
}
