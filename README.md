# Devise: module selection and password recovery, modelled in Dafny

This project models two parts of Devise, an authentication framework for
Rails models.

- **The `devise` declaration** (`devise_models.dfy`, module `DeviseModels`). A model class
  writes one of `devise`, `devise :confirmable, ...` or `devise :all, :except => [...]`,
  and may add options such as `:stretches => 15, :pepper => 'abcdef'`. `Devise` maps such a
  declaration to a `ModelConfig`. That holds the class's recorded module list
  (`deviseModules`), the set of modules mixed into the class (`includedModules`) and the
  configured option values (`settings`). `authenticable` is always selected. The two views
  of the modules are kept consistent (`Consistent`). `IncludesModule` is the question the
  model-class tests ask: is the module both recorded and mixed in?
- **The password-recovery controller** (`passwords_controller.dfy`, module `Passwords`).
  `PasswordsController` is a class with the current resource, the flash, the response and
  the sign-in record as fields. Its methods are the four actions `new`, `create`, `edit`
  and `update`. The resource-class calls `send_reset_password_instructions` and
  `reset_password!` are not modelled. Instead, the resource such a call returns is an
  argument of `Create` and `Update`. `Resource` is a class whose error set is fixed when
  it is made and whose `resetPasswordToken` can be written in place. The invariant
  `Valid()` says that only a resource without errors is ever signed in, and every action
  preserves it.

`wrappers.dfy` holds the `Option` and `Result` types.

Decisions where the source leaves things open:

- The `devise` macro itself is not part of this model. Its behaviour is taken from what
  test/active_record_test.rb asserts.
- A list naming an unknown module fails with the first unknown name.
- Names in `:except` that are not modules are ignored. `:except` never removes
  `authenticable`.
- The recorded module list is in the order `authenticable`, `confirmable`, `recoverable`,
  `rememberable`, `validatable` (`InCanonicalOrder`), so `authenticable` comes first. It is
  not in the order the declaration names the modules.
- Option values in the declaration override a map of global defaults key by key. They
  are stored and read back, nothing more. Any option key is accepted and stored, including
  one that is not a known setting; it then reads back the value given.
- The comment above `edit` (app/controllers/passwords_controller.rb:20) names the
  parameter `perishable_token`, but the code reads `reset_password_token` (line 23). The
  model follows the code.

## Model

| member | source | states |
|---|---|---|
| DeviseModels.Parse | test/active_record_test.rb:37-40 | a symbol names a module exactly when it is that module's name (the lookup from a symbol to its module) |
| DeviseModels.ParseAll | test/active_record_test.rb:7-21 | a name list resolves iff every name is a known module; the resolved set is exactly the named modules; otherwise the error is the first unknown name |
| DeviseModels.Requested | test/active_record_test.rb:3-28 | no arguments requests no module; a name list requests exactly the named modules and fails, with an unknown name, iff some name is not a module; `:all, :except => E` requests exactly the modules not named in E |
| DeviseModels.IncludesModule | test/active_record_test.rb:37-40 | on a consistent class, a module is recorded and mixed in exactly when it is mixed in, and exactly when it is recorded |
| DeviseModels.Setting | test/active_record_test.rb:90-94 | reading option `key` gives a value exactly when the class has one configured for it, and then gives that value |
| DeviseModels.Filter | test/active_record_test.rb:37-40 | the module list holds exactly the selected modules; if the given order is the canonical one the list keeps it (hence no repetition); it is led by the first module of the order when that one is selected |
| DeviseModels.Devise | test/active_record_test.rb:3-33 | a declaration resolves iff its selection does; the result's two module views agree, the list is in canonical order starting with authenticable, and hold exactly authenticable plus the requested modules; each option reads the declared value, else the default |
| DeviseModels.NoArgsSelectsAuthenticableOnly | test/active_record_test.rb:54-57 | `devise` with no arguments includes authenticable and no other module |
| DeviseModels.SingleModuleSelected | test/active_record_test.rb:59-77 | `devise :m` includes exactly authenticable and m |
| DeviseModels.AuthenticableAlwaysIncluded | test/active_record_test.rb:80-85 | every declaration that resolves includes authenticable |
| DeviseModels.AllSelectsEveryModule | test/active_record_test.rb:79-82 | `devise :all` includes all five modules |
| DeviseModels.AllExceptSelects | test/active_record_test.rb:27-28 | `devise :all, :except => E` includes authenticable and exactly the modules not named in E |
| DeviseModels.ExceptableSelectsAuthenticableAndConfirmable | test/active_record_test.rb:84-87 | excluding recoverable, rememberable and validatable leaves exactly authenticable and confirmable |
| DeviseModels.NamesResolveIffAllKnown | test/active_record_test.rb:7-21 | a module list is accepted iff every name in it is a known module |
| DeviseModels.AllExceptEqualsComplementNames | test/active_record_test.rb:7-28 | `:all, :except => E` gives the same class as a list naming exactly the modules E leaves out |
| DeviseModels.ConfigurableSettings | test/active_record_test.rb:89-95 | `devise :all, :stretches => 15, :pepper => 'abcdef'` reads stretches 15 and pepper 'abcdef' whatever the defaults |
| Passwords.Resource.Blank | app/controllers/passwords_controller.rb:22 | `resource_class.new` is a record with no errors and no reset token |
| Passwords.Resource.constructor | app/controllers/passwords_controller.rb:10 | the record a resource-class call (`send_reset_password_instructions`, or `reset_password!` at line 28) returns carries exactly the given errors and reset token |
| Passwords.PasswordsController.constructor | app/controllers/passwords_controller.rb:1 | a fresh controller has no resource, no flash, no response and nobody signed in |
| Passwords.PasswordsController.New | app/controllers/passwords_controller.rb:5-6 | `new` changes no state and so makes no redirect |
| Passwords.PasswordsController.Create | app/controllers/passwords_controller.rb:9-18 | the resource is the one returned; it redirects to the new-session path with flash send_instructions iff there are no errors, else renders new with the flash untouched; the sign-in is left as it was |
| Passwords.PasswordsController.Edit | app/controllers/passwords_controller.rb:21-24 | the resource is a fresh error-free record whose reset_password_token is the request's parameter; flash, response and sign-in are unchanged |
| Passwords.PasswordsController.Update | app/controllers/passwords_controller.rb:27-37 | the resource is the one returned; with no errors it signs in exactly that resource under the resource name, flashes updated and redirects home; with errors it renders edit and signs nobody in; the sign-in only ever changes when there are no errors |

## Left out

- The `before_filter` gates `is_devise_resource?` and `require_no_authentication`
  (app/controllers/passwords_controller.rb:2) are request plumbing and are taken to have passed.
- The internals of `send_reset_password_instructions` and `reset_password!` (token generation,
  expiry, mail delivery) live in model files that are not part of this model. Their results
  are inputs.
- Session mechanics inside `sign_in`, flash storage, routing, the path helpers and view
  rendering are represented by labels only (`SignIn`, `FlashMessage`, `Path`, `Template`).
- `new` and `edit` leave `response` unchanged: the implicit template render Rails performs
  afterwards belongs to the view layer.
- Ruby reflection (`included_modules`, `const_get`, `classify`) is replaced by the explicit
  `includedModules` set.
- Password hashing with stretches and pepper is not modelled. The options are only stored and
  read back, and their values are not checked.
- ActiveRecord persistence and the `User` base class are not part of this model.
