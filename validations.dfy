/** The validators of the library's `validations` module are not part of this
    model. Every operation that calls them takes them as a parameter, so what is
    proved holds whatever they accept, reject or normalise. */
module Validations {
  import opened Wrappers

  /** `validFsPath` stands for `valid_fs_path_or_raise`, `allowedDevice` for
      `allowed_device_or_raise`, `validCgroupPerm` for
      `valid_cgroup_perm_or_raise`: each returns the (possibly normalised) value
      or the error it raises. */
  datatype Validators = Validators(
    validFsPath: string -> Result<string>,
    allowedDevice: string -> Result<string>,
    validCgroupPerm: string -> Result<string>
  )
}
