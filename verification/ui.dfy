/** The notifications the pages show. The toast widget itself is not modelled;
    only its icon and its title are. */
module Ui {
  import opened Json

  datatype Icon = SuccessIcon | ErrorIcon

  /** `Toast(icon, title)`: the title is any JavaScript value the page passes. */
  datatype Toast = Toast(icon: Icon, title: Value)

  function SuccessToast(message: string): (t: Toast)
    ensures t.icon == SuccessIcon && t.title == Str(message)
  {
    Toast(SuccessIcon, Str(message))
  }

  function ErrorToast(message: string): (t: Toast)
    ensures t.icon == ErrorIcon && t.title == Str(message)
  {
    Toast(ErrorIcon, Str(message))
  }
}
