/** The screens the forms navigate between: `/`, `/signup` and `/hero`. */
module Routes {

  datatype Route = Root | SignUpPage | HeroPage
}
