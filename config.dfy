/** The settings the data tools read (src/mcp_fred/config.py). */
module Settings {
  /** `AppConfig.output.job_row_threshold` and `AppConfig.storage.default_project`. */
  datatype Config = Config(jobRowThreshold: int, defaultProject: string)

  /** The declared defaults: 10,000 rows and the project "default". */
  function DefaultConfig(): Config {
    Config(10_000, "default")
  }
}
